/**
 * The superadmin application's route guard: no bypass paths, no selection
 * cookie and no disabled-workspace check, only the session and the role.
 */
module SuperadminGuard {
  import opened Base
  import opened Text
  import opened AuthTypes
  import opened Access
  import opened Cookies
  import opened RouteResponse

  datatype Facts = Facts(path: string, envPresent: bool, user: Option<User>)

  /** The decision chain of the superadmin middleware. */
  function Decide(f: Facts): Outcome {
    if !f.envPresent then PassThrough
    else if f.user.None? then ToLogin(f.path, None)
    else if !CanAccessApp(f.user.value.role, SuperadminApp) then ToLogin(f.path, None)
    else Authorised(f.path)
  }

  /** `middleware(request)`, with the cookies the provider writes while the session is read. */
  method Middleware(f: Facts, providerCookies: seq<Cookie>) returns (resp: GuardResponse)
    ensures resp.outcome == Decide(f)
    ensures resp.outcome.PassThrough? ==>
      resp.cookies == (if f.envPresent then PutAll([], providerCookies) else [])
    ensures resp.outcome.RedirectTo? ==> resp.cookies == StripOptions(PutAll([], providerCookies))
  {
    resp := Respond(f.envPresent, Decide(f), providerCookies);
  }

  /** Missing provider configuration lets every request through (fail open). */
  lemma MissingEnvFailsOpen(f: Facts)
    requires !f.envPresent
    ensures Decide(f) == PassThrough
  {
  }

  /** Without a user, the login page passes and every other path redirects to it. */
  lemma NoUserGoesToLogin(f: Facts)
    requires f.envPresent && f.user.None?
    ensures f.path == "/login" ==> Decide(f) == PassThrough
    ensures f.path != "/login" ==> Decide(f) == RedirectTo("/login", None)
  {
  }

  /** Every role but `superadmin` is treated exactly like no user. */
  lemma NonSuperadminLikeNoUser(f: Facts)
    requires f.user.Some? && f.user.value.role != "superadmin"
    ensures Decide(f) == Decide(f.(user := None))
  {
    SuperadminAppAdmitsOnlySuperadmin(f.user.value.role);
  }

  /** An authorised superadmin on the login page goes home; any other path passes. */
  lemma SuperadminAuthorised(f: Facts)
    requires f.envPresent && f.user.Some? && f.user.value.role == "superadmin"
    ensures f.path == "/login" ==> Decide(f) == RedirectTo("/", None)
    ensures f.path != "/login" ==> Decide(f) == PassThrough
  {
    SuperadminAppAdmitsOnlySuperadmin(f.user.value.role);
  }

  /** No path is exempt: with the provider configured, a path passes only for a superadmin or as the login page. */
  lemma EveryPathGuarded(f: Facts)
    requires f.envPresent && Decide(f) == PassThrough
    ensures f.path == "/login" || (f.user.Some? && f.user.value.role == "superadmin")
  {
    if f.user.Some? {
      SuperadminAppAdmitsOnlySuperadmin(f.user.value.role);
    }
  }

  /** Every redirect goes to the login page without a reason or home without a reason. */
  lemma RedirectTargets(f: Facts)
    ensures Decide(f).RedirectTo? ==> Decide(f).error.None? && Decide(f).path in {"/login", "/"}
  {
  }

  // The route matcher: `/((?!_next/static|_next/image|favicon.ico|.*\.(?:svg|png|jpg|jpeg|gif|webp)$).*)`.

  /** Whether the middleware runs for `path` at all: static assets and images are never guarded. */
  predicate Matched(path: string) {
    SingleLinePath(path) && !StaticAsset(path[1..])
  }

  /** A path whose remainder has no dot, no line break, and does not begin with `_` or `f` is guarded. */
  lemma PlainPathMatched(path: string)
    requires |path| >= 2 && path[0] == '/' && path[1] != '_' && path[1] != 'f'
    requires forall i :: 1 <= i < |path| ==> path[i] != '.' && !IsLineTerminator(path[i])
    ensures Matched(path)
  {
    var rest := path[1..];
    assert rest[0] == path[1];
    PlainNotStatic(rest);
  }

  /** Unlike the workspace matcher, this one does not exempt the `/api/public` prefix or the hand-off page. */
  lemma PublicApiIsGuarded()
    ensures Matched("/api/public/leads")
    ensures Matched("/auth/enter")
  {
    LeadsEndpointMatched();
    HandOffMatched();
  }

  lemma LeadsEndpointMatched()
    ensures Matched("/api/public/leads")
  {
    var p := "/api/public/leads";
    forall i | 1 <= i < |p| ensures p[i] != '.' && !IsLineTerminator(p[i]) {
    }
    PlainPathMatched(p);
  }

  lemma HandOffMatched()
    ensures Matched("/auth/enter")
  {
    var q := "/auth/enter";
    forall i | 1 <= i < |q| ensures q[i] != '.' && !IsLineTerminator(q[i]) {
    }
    PlainPathMatched(q);
  }
}
