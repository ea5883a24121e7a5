/**
 * The workspace application's route guard (its Next.js middleware): a
 * first-match-wins chain over already-resolved facts that ends in a
 * pass-through, a redirect to `/login` (possibly with an `error` reason) or a
 * redirect to `/`.
 */
module WorkspaceGuard {
  import opened Base
  import opened Text
  import opened AuthTypes
  import opened Access
  import opened Cookies
  import opened RouteResponse
  import Selection

  const PUBLIC_API_PREFIX: string := "/api/public"
  const AUTH_ENTER_PATH: string := "/auth/enter"
  const SET_SELECTION_PATH: string := "/api/auth/set-superadmin-workspace"
  const NO_WORKSPACE_REASON: string := "superadmin_no_workspace"
  const DEACTIVATED_REASON: string := "deactivated"

  /** The facts the guard decides from. `ownedWorkspaceDisabled` is `workspace?.disabled` of the owner lookup: `None` when no single row came back. */
  datatype Facts = Facts(
    path: string,
    envPresent: bool,
    user: Option<User>,
    selectionCookie: Option<string>,
    ownedWorkspaceDisabled: Option<bool>)

  /** Paths the guard lets through before any authentication lookup. */
  predicate Bypassed(path: string) {
    StartsWith(path, PUBLIC_API_PREFIX) || path == AUTH_ENTER_PATH
  }

  /** The decision chain of the workspace middleware. */
  function Decide(f: Facts): Outcome {
    if Bypassed(f.path) then PassThrough
    else if !f.envPresent then PassThrough
    else if f.user.None? then ToLogin(f.path, None)
    else if !CanAccessApp(f.user.value.role, WorkspaceApp) then ToLogin(f.path, None)
    else if f.user.value.role == SUPERADMIN then
      if f.path == SET_SELECTION_PATH then PassThrough
      else if Selection.ParseSelection(f.selectionCookie).None? then ToLogin(f.path, Some(NO_WORKSPACE_REASON))
      else Authorised(f.path)
    else if f.ownedWorkspaceDisabled == Some(true) then ToLogin(f.path, Some(DEACTIVATED_REASON))
    else Authorised(f.path)
  }

  /** Whether the guard consulted the identity provider, whose cookie writes land on the pass-through response. */
  predicate ProviderConsulted(f: Facts) {
    !Bypassed(f.path) && f.envPresent
  }

  /**
   * `middleware(request)`. `providerCookies` are the cookies the provider's
   * `setAll` writes, with their options, onto the pass-through response while
   * the session is read; a redirect receives them through `copyCookies`.
   */
  method Middleware(f: Facts, providerCookies: seq<Cookie>) returns (resp: GuardResponse)
    ensures resp.outcome == Decide(f)
    ensures resp.outcome.PassThrough? ==>
      resp.cookies == (if ProviderConsulted(f) then PutAll([], providerCookies) else [])
    ensures resp.outcome.RedirectTo? ==> resp.cookies == StripOptions(PutAll([], providerCookies))
  {
    resp := Respond(ProviderConsulted(f), Decide(f), providerCookies);
  }

  /** The public API prefix and the hand-off page pass before any authentication lookup. */
  lemma BypassBeforeAuth(f: Facts)
    requires Bypassed(f.path)
    ensures Decide(f) == PassThrough
    ensures !ProviderConsulted(f)
  {
  }

  /** Missing provider configuration lets every request through (fail open). */
  lemma MissingEnvFailsOpen(f: Facts)
    requires !f.envPresent
    ensures Decide(f) == PassThrough
  {
  }

  /** Without a user, the login page passes and every other guarded path redirects to it. */
  lemma NoUserGoesToLogin(f: Facts)
    requires f.envPresent && !Bypassed(f.path) && f.user.None?
    ensures f.path == LOGIN_PATH ==> Decide(f) == PassThrough
    ensures f.path != LOGIN_PATH ==> Decide(f) == RedirectTo("/login", None)
  {
  }

  /** A role the workspace application does not admit is treated exactly like no user. */
  lemma DeniedRoleLikeNoUser(f: Facts)
    requires f.user.Some? && !CanAccessApp(f.user.value.role, WorkspaceApp)
    ensures Decide(f) == Decide(f.(user := None))
  {
  }

  /** A superadmin always reaches the selection endpoint. */
  lemma SuperadminReachesSelectionEndpoint(f: Facts)
    requires f.envPresent && f.user.Some? && f.user.value.role == SUPERADMIN
    requires f.path == SET_SELECTION_PATH
    ensures Decide(f) == PassThrough
  {
  }

  /** A superadmin without an acceptable selection cookie is sent to log in with a reason, except on the login page. */
  lemma SuperadminNeedsSelection(f: Facts)
    requires f.envPresent && !Bypassed(f.path) && f.user.Some? && f.user.value.role == SUPERADMIN
    requires f.path != SET_SELECTION_PATH
    requires Selection.ParseSelection(f.selectionCookie).None?
    ensures f.path == LOGIN_PATH ==> Decide(f) == PassThrough
    ensures f.path != LOGIN_PATH ==> Decide(f) == RedirectTo("/login", Some("superadmin_no_workspace"))
  {
  }

  /** With an acceptable selection, a superadmin on the login page goes home and elsewhere passes. */
  lemma SuperadminWithSelection(f: Facts)
    requires f.envPresent && !Bypassed(f.path) && f.user.Some? && f.user.value.role == SUPERADMIN
    requires f.path != SET_SELECTION_PATH
    requires Selection.ParseSelection(f.selectionCookie).Some?
    ensures f.path == LOGIN_PATH ==> Decide(f) == RedirectTo("/", None)
    ensures f.path != LOGIN_PATH ==> Decide(f) == PassThrough
  {
  }

  /** A superadmin's outcome never depends on the disabled-workspace lookup. */
  lemma SuperadminSkipsDisabledCheck(f: Facts, w: Option<bool>)
    requires f.user.Some? && f.user.value.role == SUPERADMIN
    ensures Decide(f) == Decide(f.(ownedWorkspaceDisabled := w))
  {
  }

  /** Any other admitted role with a disabled workspace is sent to log in with `deactivated`, except on the login page. */
  lemma DisabledWorkspaceDeactivates(f: Facts)
    requires f.envPresent && !Bypassed(f.path) && f.user.Some?
    requires CanAccessApp(f.user.value.role, WorkspaceApp) && f.user.value.role != SUPERADMIN
    requires f.ownedWorkspaceDisabled == Some(true)
    ensures f.path == LOGIN_PATH ==> Decide(f) == PassThrough
    ensures f.path != LOGIN_PATH ==> Decide(f) == RedirectTo("/login", Some("deactivated"))
  {
  }

  /** A missing workspace row counts as enabled (fail open). */
  lemma MissingWorkspaceRowIsEnabled(f: Facts)
    requires f.ownedWorkspaceDisabled.None?
    ensures Decide(f) == Decide(f.(ownedWorkspaceDisabled := Some(false)))
  {
  }

  /** An admitted non-superadmin with an enabled workspace: the login page goes home, every other path passes. */
  lemma EnabledMemberAuthorised(f: Facts)
    requires f.envPresent && !Bypassed(f.path) && f.user.Some?
    requires CanAccessApp(f.user.value.role, WorkspaceApp) && f.user.value.role != SUPERADMIN
    requires f.ownedWorkspaceDisabled != Some(true)
    ensures f.path == LOGIN_PATH ==> Decide(f) == RedirectTo("/", None)
    ensures f.path != LOGIN_PATH ==> Decide(f) == PassThrough
  {
  }

  /** Every redirect goes to the login page with one of the two reasons (or none), or home with none. */
  lemma RedirectTargets(f: Facts)
    ensures Decide(f).RedirectTo? ==>
      (Decide(f).path == "/login" && Decide(f).error in {None, Some("superadmin_no_workspace"), Some("deactivated")})
      || (Decide(f).path == "/" && Decide(f).error.None?)
    ensures Decide(f).RedirectTo? && Decide(f).path == "/login" ==> f.path != "/login"
  {
  }

  /** A superadmin with no selection cookie asking for `/dashboard` is sent to log in with the no-workspace reason. */
  lemma ScenarioSuperadminWithoutSelection(u: User)
    requires u.role == SUPERADMIN
    ensures Decide(Facts("/dashboard", true, Some(u), None, None))
      == RedirectTo("/login", Some("superadmin_no_workspace"))
  {
  }

  /** A workspace admin whose workspace is disabled asking for `/leads` is sent to log in with `deactivated`. */
  lemma ScenarioDisabledAdmin(u: User)
    requires u.role == WORKSPACE_ADMIN
    ensures Decide(Facts("/leads", true, Some(u), None, Some(true)))
      == RedirectTo("/login", Some("deactivated"))
  {
  }

  // The route matcher: `/((?!_next/static|_next/image|favicon.ico|api/public|auth/enter|.*\.(?:svg|png|jpg|jpeg|gif|webp)$).*)`.

  /** The negative look-ahead of the matcher, applied to the path after its leading `/`. */
  predicate ExcludedByMatcher(rest: string) {
    StaticAsset(rest) || StartsWith(rest, "api/public") || StartsWith(rest, "auth/enter")
  }

  /** Whether the middleware runs for `path` at all. */
  predicate Matched(path: string) {
    SingleLinePath(path) && !ExcludedByMatcher(path[1..])
  }

  /** The matcher already keeps the middleware off the public API and every path beginning with `/auth/enter`. */
  lemma MatcherCoversBypass(path: string)
    requires StartsWith(path, PUBLIC_API_PREFIX) || StartsWith(path, AUTH_ENTER_PATH)
    ensures !Matched(path)
  {
    assert path[1..][..|"api/public"|] == path[1..|PUBLIC_API_PREFIX|];
    assert path[1..][..|"auth/enter"|] == path[1..|AUTH_ENTER_PATH|];
  }

  /** A path whose remainder has no dot, no line break, and does not begin with `_`, `f` or `a` is guarded. */
  lemma PlainPathMatched(path: string)
    requires |path| >= 2 && path[0] == '/'
    requires path[1] != '_' && path[1] != 'f' && path[1] != 'a'
    requires forall i :: 1 <= i < |path| ==> path[i] != '.' && !IsLineTerminator(path[i])
    ensures Matched(path)
  {
    var rest := path[1..];
    assert rest[0] == path[1];
    PlainNotStatic(rest);
  }

  /** Ordinary application pages are guarded. */
  lemma DashboardIsMatched()
    ensures Matched("/dashboard")
    ensures Matched("/login")
  {
    DashboardPathMatched();
    LoginPathMatched();
  }

  lemma DashboardPathMatched()
    ensures Matched("/dashboard")
  {
    var p := "/dashboard";
    forall i | 1 <= i < |p| ensures p[i] != '.' && !IsLineTerminator(p[i]) {
    }
    PlainPathMatched(p);
  }

  lemma LoginPathMatched()
    ensures Matched("/login")
  {
    var p := "/login";
    forall i | 1 <= i < |p| ensures p[i] != '.' && !IsLineTerminator(p[i]) {
    }
    PlainPathMatched(p);
  }
}
