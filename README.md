# CRM access-control and credential gateway, in Dafny

This project models the access-control and credential gateway of a two-app CRM. The CRM has a **superadmin** app, which manages workspaces and users, and a **workspace** app, where workspace admins and customers work with leads. The model covers:

- **Role policy and principal mapping.** The role-to-app table, `isRoleAllowed`, and how a provider user's free-form `user_metadata` becomes a `User`. Modules: `Access`, `AuthUser`, `AuthClient`, `AuthTypes`.
- **The two route guards**, one per app. Each is a first-match-wins chain over resolved facts (`WorkspaceGuard`, `SuperadminGuard`). Their shared parts are the outcomes, how responses carry session cookies, and the route-matcher pieces (`RouteResponse`, `Cookies`).
- **The superadmin hand-off into a workspace**:
  - the magic-link redirect (`WorkspaceActions.GetWorkspaceLoginLink`, `EnvUrls`);
  - the `/auth/enter` page (`AuthEnter`);
  - the selection endpoint that writes the `superadmin_workspace_id` cookie (`SetSelectionRoute`);
  - the one acceptance rule for that cookie, written out in four places in the source (`Selection`);
  - how the authentication context derives `workspaceId` from it (`AuthContext`).
- **Superadmin server actions.** The `requireSuperadmin` gate (`SuperadminGate`), the workspace actions on a `Backend` class holding the workspace table and user directory (`WorkspaceActions`), and the paginated user listing (`UserActions`).
- **Workspace sign-in.** The `signIn` server action (`LoginActions`) and the login form's reason-code messages and submit check (`LoginPage`).
- **API keys.** Key generation, origin normalisation, workspace resolution, and a class over the key table with create, list, revoke and update (`ApiKeys`).
- **The public lead-ingestion endpoint.** Key extraction, the origin fallback, lookup by hash, the allow-list match, the disabled-workspace check, body validation, CORS, and the inserts (`PublicLeads`). It uses the field validators (`LeadValidation`) and the lead-status table (`LeadStatus`).
- **Small utilities.** Logout's storage purge (`Logout`), mail escaping and the mail sender (`Email`), and the `cn` class-name joiner (`ClassNames`). The JavaScript string built-ins the code relies on are in `Text`: `trim`, ASCII `toLowerCase`, `parseInt(s, 10)` and `String(n)`.

Each source file maps to a module, and helpers that several files share are defined once (the two `env.ts` files in `EnvUrls`, both middlewares' cookie copy in `Cookies`, both copies of `requireSuperadmin` in `SuperadminGate`, the layout's parse in `Selection`). `Base`, `Text` and `RouteResponse` hold shared definitions of the model's own. Pure source code becomes functions and lemmas. The parts of the source that change state become classes with `modifies` clauses:

- logout's storages;
- the cookie jars;
- the authentication provider;
- the `/auth/enter` page and the login form;
- the workspace backend;
- the sign-in session;
- the API-key table;
- the lead tables.

The source's loops become methods with loop invariants:

- `copyCookies` and `setAll`;
- the two passes of `clearAuthStorage`;
- the `listAllUsers` page loop.

Calls into code that cannot be seen become parameters:

- the identity provider's answers;
- SHA-256 (`hash`);
- `randomBytes` (`bytes`);
- `new URL(...).origin` (`parseOrigin`);
- `encodeURIComponent` and `decodeURIComponent`;
- `generateLink`;
- database errors and newly assigned row ids.

## Model

| member | source | states |
|---|---|---|
| Access.AllowedRolesForApp | apps/shared/src/auth/access.ts:11-23 | The superadmin app's list is exactly `["superadmin"]`. The workspace app's list is exactly `["superadmin", "workspace_admin", "customer"]`, in declared order. |
| Access.CanAccessAppIff | apps/shared/src/auth/access.ts:29-38 | `canAccessApp(r, a)` holds iff `r` is in `getAllowedRolesForApp(a)`. |
| Access.SuperadminAppAdmitsOnlySuperadmin | apps/shared/src/auth/access.ts:11 | The superadmin app admits a role iff it is `superadmin`. |
| Access.WorkspaceAppAdmits | apps/shared/src/auth/access.ts:12-16 | The workspace app admits exactly the three known roles, `superadmin` included. |
| Access.AccessMatrix | apps/shared/src/auth/access.ts:11-16 | `workspace_admin` and `customer` are refused by the superadmin app and admitted to the workspace app. `superadmin` is admitted to both. |
| Access.WorkspaceRefusesOnlyUnknown | apps/shared/src/auth/access.ts:12-16 | A role the workspace app refuses is none of the three known roles. |
| Access.AllowedRolesDistinct | apps/shared/src/auth/access.ts:11-16 | Both allowed-role lists are duplicate-free. |
| AuthUser.GetCurrentUser | apps/shared/src/auth/user.ts:9-18 | The result is null iff the provider reported an error or no user. Otherwise it is the mapping of the provider user. |
| AuthUser.ErrorIndistinguishableFromAbsent | apps/shared/src/auth/user.ts:16 | A provider error and a missing user give callers the same result. |
| AuthUser.GetRole | apps/shared/src/auth/user.ts:23-25 | The role is returned unchanged. |
| AuthUser.GetWorkspaceId | apps/shared/src/auth/user.ts:30-32 | `workspace_id` is returned unchanged, null included. |
| AuthUser.IsRoleAllowed | apps/shared/src/auth/user.ts:37-42 | True iff the role is in the list, so false for the empty list. |
| AuthClient.BeforeFirstAt | apps/shared/src/auth/client.ts:34 | `split("@")[0]` is a prefix of the e-mail with no `@`. It is followed by an `@` or is the whole text. |
| AuthClient.MapProviderUser | apps/shared/src/auth/client.ts:21-43 | Null in gives null out. Otherwise `id` is copied and `email` is the provider's e-mail or `""`. |
| AuthClient.MappedRole | apps/shared/src/auth/client.ts:24-30 | The role is the metadata role, unvalidated, or `customer` when absent. |
| AuthClient.MappedWorkspaceId | apps/shared/src/auth/client.ts:31-32 | `workspace_id` is present iff the metadata value is a number, and then equals it. |
| AuthClient.StringWorkspaceIdDropped | apps/shared/src/auth/client.ts:31-32 | A string workspace id such as `"5"` becomes null. |
| AuthClient.MappedName | apps/shared/src/auth/client.ts:33-34 | The name falls back in order: `full_name`, then `name`, then the e-mail text before the first `@`, then null. |
| Cookies.Lookup | apps/workspace/middleware.ts:59 | `cookies.get(name)` finds a cookie of the jar with that name, or none if no cookie has the name. |
| Cookies.Put | apps/workspace/middleware.ts:10 | Setting a cookie whose name is new appends it. |
| Cookies.PutLookup | apps/workspace/middleware.ts:10 | After `set`, the name finds the new cookie, and every other name finds what it found before. |
| Cookies.StripOptions | apps/workspace/middleware.ts:9-11 | The copy keeps each cookie's name and value, position by position, and drops its options. |
| Cookies.CopyIntoEmpty | apps/workspace/middleware.ts:9-11 | Copying a duplicate-free jar into a fresh response reproduces its names and values, in order. |
| Cookies.CookieJar.Set | apps/workspace/middleware.ts:28-32 | `response.cookies.set` replaces or appends the named cookie. |
| Cookies.SetAll | apps/workspace/middleware.ts:28-32 | The provider's `setAll` sets each cookie, options included, in order. |
| Cookies.CopyCookies | apps/workspace/middleware.ts:9-11 | `copyCookies` sets every (name, value) of `from` onto `to`, in order, and leaves `from` unchanged. |
| RouteResponse.Respond | apps/workspace/middleware.ts:41-54 | A pass-through carries the provider's cookies with their options. A redirect carries only their names and values. A request decided before the provider is consulted carries none. |
| RouteResponse.PlainNotStatic | apps/workspace/middleware.ts:100-104 | A path remainder without a dot that starts with neither `_` nor `f` is not a static asset. |
| WorkspaceGuard.Middleware | apps/workspace/middleware.ts:13-98 | The outcome is the decision chain `Decide`. The response cookies follow the `Respond` rule. |
| WorkspaceGuard.BypassBeforeAuth | apps/workspace/middleware.ts:16-17 | `/api/public...` and exactly `/auth/enter` pass before any provider lookup. |
| WorkspaceGuard.MissingEnvFailsOpen | apps/workspace/middleware.ts:19-21 | With the provider settings missing, every request passes. |
| WorkspaceGuard.NoUserGoesToLogin | apps/workspace/middleware.ts:41-46 | With no user, `/login` passes and every other guarded path redirects to `/login`. |
| WorkspaceGuard.DeniedRoleLikeNoUser | apps/workspace/middleware.ts:48-54 | A role the workspace app refuses gets exactly the outcome of no user. |
| WorkspaceGuard.SuperadminReachesSelectionEndpoint | apps/workspace/middleware.ts:56-58 | A superadmin always reaches the selection endpoint. |
| WorkspaceGuard.SuperadminNeedsSelection | apps/workspace/middleware.ts:59-68 | A superadmin without an acceptable selection cookie is redirected to `/login?error=superadmin_no_workspace`, except on `/login`. |
| WorkspaceGuard.SuperadminWithSelection | apps/workspace/middleware.ts:69-74 | A superadmin with an acceptable selection is sent from `/login` to `/`, and passes elsewhere. |
| WorkspaceGuard.SuperadminSkipsDisabledCheck | apps/workspace/middleware.ts:56-77 | A superadmin's outcome never depends on the disabled-workspace lookup. |
| WorkspaceGuard.DisabledWorkspaceDeactivates | apps/workspace/middleware.ts:77-89 | Another admitted role whose owned workspace is disabled is redirected to `/login?error=deactivated`, except on `/login`. |
| WorkspaceGuard.MissingWorkspaceRowIsEnabled | apps/workspace/middleware.ts:77-82 | A missing workspace row is decided as an enabled one. |
| WorkspaceGuard.EnabledMemberAuthorised | apps/workspace/middleware.ts:91-97 | An admitted non-superadmin with an enabled workspace is sent from `/login` to `/`, and passes elsewhere. |
| WorkspaceGuard.RedirectTargets | apps/workspace/middleware.ts:41-97 | Every redirect goes either to `/login` with no reason or one of the two reasons, or to `/` with no reason. A request on `/login` is never redirected to `/login`. |
| WorkspaceGuard.ScenarioSuperadminWithoutSelection | apps/workspace/middleware.ts:56-68 | A superadmin with no cookie asking for `/dashboard` goes to `/login?error=superadmin_no_workspace`. |
| WorkspaceGuard.ScenarioDisabledAdmin | apps/workspace/middleware.ts:77-89 | A workspace admin whose workspace is disabled, asking for `/leads`, goes to `/login?error=deactivated`. |
| WorkspaceGuard.MatcherCoversBypass | apps/workspace/middleware.ts:100-104 | The matcher never runs the guard on paths starting with `/api/public` or `/auth/enter`. |
| WorkspaceGuard.PlainPathMatched | apps/workspace/middleware.ts:100-104 | A one-line path without a dot whose first character is not `_`, `f` or `a` is guarded. |
| WorkspaceGuard.DashboardIsMatched | apps/workspace/middleware.ts:100-104 | `/dashboard` and `/login` are guarded. |
| SuperadminGuard.Middleware | apps/superadmin/middleware.ts:11-58 | The outcome is the decision chain `Decide`. The response cookies follow the `Respond` rule. |
| SuperadminGuard.MissingEnvFailsOpen | apps/superadmin/middleware.ts:14-16 | With the provider settings missing, every request passes. |
| SuperadminGuard.NoUserGoesToLogin | apps/superadmin/middleware.ts:36-41 | With no user, `/login` passes and every other path redirects to `/login`. |
| SuperadminGuard.NonSuperadminLikeNoUser | apps/superadmin/middleware.ts:43-49 | Every role but `superadmin` gets exactly the outcome of no user. |
| SuperadminGuard.SuperadminAuthorised | apps/superadmin/middleware.ts:51-57 | A superadmin is sent from `/login` to `/`, and passes elsewhere. |
| SuperadminGuard.EveryPathGuarded | apps/superadmin/middleware.ts:11-57 | With the provider configured, a path passes only for a superadmin or as `/login`. There is no bypass. |
| SuperadminGuard.RedirectTargets | apps/superadmin/middleware.ts:36-57 | Redirects go to `/login` or `/`, never with a reason. |
| SuperadminGuard.PlainPathMatched | apps/superadmin/middleware.ts:60-64 | A one-line path without a dot whose first character is not `_` or `f` is guarded. |
| SuperadminGuard.PublicApiIsGuarded | apps/superadmin/middleware.ts:60-64 | Unlike the workspace matcher, this one guards `/api/public/...` and `/auth/enter`. |
| Selection.ParseSelection | apps/workspace/middleware.ts:59-61 | A cookie is accepted iff it is present and `parseInt(value, 10)` is an integer >= 1. It then yields that integer. An absent cookie yields nothing. |
| Selection.LayoutSelection | apps/workspace/src/app/layout.tsx:19-31 | The layout's parse is the same rule as the guard's, and null reaches the provider as its default. |
| Selection.CanonicalSelectionRoundTrip | apps/workspace/src/app/api/auth/set-superadmin-workspace/route.ts:47 | The decimal text written for an id >= 1 is accepted as that id. |
| Selection.LeadingZerosTolerated | apps/workspace/src/app/layout.tsx:23-24 | `"007"` selects 7. |
| Selection.TrailingJunkTolerated | apps/workspace/src/app/layout.tsx:23-24 | `"12abc"` selects 12. |
| Selection.ZeroRejected | apps/workspace/src/app/layout.tsx:23-24 | `"0"` selects nothing. |
| Selection.NegativeRejected | apps/workspace/src/app/layout.tsx:23-24 | `"-3"` selects nothing. |
| Selection.NonNumericRejected | apps/workspace/src/app/layout.tsx:23-24 | A value whose first character is not whitespace, a digit or a sign selects nothing. |
| Text.DecimalStringParses | apps/workspace/src/app/api/auth/set-superadmin-workspace/route.ts:47 | `parseInt(String(n), 10) == n` for every natural `n`. |
| Text.IntStringParses | apps/superadmin/src/app/actions/workspaces.ts:171 | The template text of any integer id parses back to it. |
| SetSelectionRoute.SelectionCookieOptions | apps/workspace/src/app/api/auth/set-superadmin-workspace/route.ts:47-53 | The cookie is HTTP-only and `lax`, lives 86400 seconds on path `/`, and is secure iff in production. |
| SetSelectionRoute.Get | apps/workspace/src/app/api/auth/set-superadmin-workspace/route.ts:8-55 | See note 1 below the table. |
| SetSelectionRoute.WrittenSelectionAuthorises | apps/workspace/src/app/api/auth/set-superadmin-workspace/route.ts:47 | With the written cookie, the workspace guard decides every other guarded path of a superadmin as authorised. |
| SetSelectionRoute.LeadingZerosDropped | apps/workspace/src/app/api/auth/set-superadmin-workspace/route.ts:10-11 | `"007"` is stored as `"7"`. |
| SetSelectionRoute.TrailingJunkDropped | apps/workspace/src/app/api/auth/set-superadmin-workspace/route.ts:10-11 | `"12abc"` is stored as `"12"`. |
| SetSelectionRoute.SameIdSameCookie | apps/workspace/src/app/api/auth/set-superadmin-workspace/route.ts:47-54 | Two requests whose ids parse alike store cookies that read back alike, so repeating a call is idempotent. |
| AuthEnter.FailureMessage | apps/workspace/src/app/auth/enter/page.tsx:49-56 | The chain navigates home iff the response is ok. A non-ok response shows "Failed to set workspace". A rejection shows the `Error`'s message, or "Something went wrong" for any other value. |
| AuthEnter.AuthEnterPage.Effect | apps/workspace/src/app/auth/enter/page.tsx:13-41 | See note 2 below the table. |
| AuthEnter.AuthEnterPage.Settle | apps/workspace/src/app/auth/enter/page.tsx:42-56 | An ok response navigates to `/` and touches nothing else. Any other settlement sets the error state with `FailureMessage`. |
| AuthContext.ContextRole | apps/shared/src/auth/AuthContext.tsx:83 | `role` is the user's role, or null iff there is no user. |
| AuthContext.ContextWorkspaceId | apps/shared/src/auth/AuthContext.tsx:84-87 | `workspaceId` is the selection when the user is a superadmin and a selection was handed in. Otherwise it is `user.workspace_id ?? null`. |
| AuthContext.SelectionIgnoredForOthers | apps/shared/src/auth/AuthContext.tsx:85-87 | A non-superadmin's `workspaceId` never depends on the selection. |
| AuthContext.SelectionUsedIff | apps/shared/src/auth/AuthContext.tsx:85-87 | The selection is used iff the user is a superadmin and a selection is present. |
| AuthContext.Derive | apps/shared/src/auth/AuthContext.tsx:80-93 | The memoised value agrees with the state: user, loading flag, role and workspace. |
| AuthContext.AuthProvider.Mount | apps/shared/src/auth/AuthContext.tsx:49-67 | With no client, loading ends, the user stays null and no run is recorded. With a client, a new run starts with its own `mounted` set and its subscription open, and `init` starts for that run. Earlier runs are left as they were. |
| AuthContext.AuthProvider.InitResolved | apps/shared/src/auth/AuthContext.tsx:54-60 | `init`'s result is stored and loading ends iff the run that started that `init` is still mounted. A later run being mounted does not count. |
| AuthContext.AuthProvider.AuthStateChanged | apps/shared/src/auth/AuthContext.tsx:63-67 | An event on a run's live subscription starts a refresh iff that run is mounted. |
| AuthContext.AuthProvider.RefreshResolved | apps/shared/src/auth/AuthContext.tsx:43-47 | `refreshUser` stores its result without consulting `mounted`. |
| AuthContext.AuthProvider.Cleanup | apps/shared/src/auth/AuthContext.tsx:69-72 | Cleanup unmounts and unsubscribes the latest run only. |
| AuthContext.RemountIgnoresStaleInit | apps/shared/src/auth/AuthContext.tsx:49-73 | After a cleanup and a second run, a late `init` from the first run changes nothing: the user stays null and loading goes on. The second run's `init` then sets the user and ends loading. |
| AuthContext.AuthProvider.SignOut | apps/shared/src/auth/AuthContext.tsx:75-78 | See note 3 below the table. |
| AuthContext.UseAuth | apps/shared/src/auth/AuthContext.tsx:100-104 | Outside a provider the call fails with "useAuth must be used within AuthProvider". Inside one it returns the provider's value. |
| Logout.AuthKeys | apps/shared/src/auth/logout.ts:16-22 | The collected keys are exactly the keys starting with `sb-`. |
| Logout.KeptKeys | apps/shared/src/auth/logout.ts:13-35 | The keys left are exactly the keys not starting with `sb-`. |
| Logout.KeptItems | apps/shared/src/auth/logout.ts:13-35 | The entries left are exactly the non-`sb-` entries, with unchanged values. |
| Logout.KeptKeysIdempotent | apps/shared/src/auth/logout.ts:13-35 | Purging a purged key list changes nothing. |
| Logout.PurgeIdempotent | apps/shared/src/auth/logout.ts:13-35 | Clearing twice leaves keys and entries as clearing once does. |
| Logout.WebStorage.RemoveItem | apps/shared/src/auth/logout.ts:23 | `removeItem(k)` removes `k` from the keys and the entries. |
| Logout.CollectAuthKeys | apps/shared/src/auth/logout.ts:16-22 | The first pass over the indices collects the `sb-` keys in index order, without changing the storage. |
| Logout.RemoveEachIsWithout | apps/shared/src/auth/logout.ts:23 | Removing the collected keys one at a time removes exactly that set. |
| Logout.ClearStorage | apps/shared/src/auth/logout.ts:16-23 | After both passes, the storage holds exactly the kept keys and entries and is still consistent. |
| Logout.PurgeComplete | apps/shared/src/auth/logout.ts:16-31 | Removing exactly the collected keys leaves the kept keys and entries, duplicate-free and consistent. |
| Logout.ClearAuthStorage | apps/shared/src/auth/logout.ts:13-35 | See note 4 below the table. |
| Logout.PerformLogout | apps/shared/src/auth/logout.ts:42-47 | The provider sign-out happens iff there is a client. The storage purge follows it, and also happens without a client. |
| Email.EscapeChar | apps/superadmin/src/lib/email.ts:115-119 | A character other than `& < > "` is its own chunk. |
| Email.EscapeEach | apps/superadmin/src/lib/email.ts:114-120 | The per-character reference escaping has no `<`, `>` or `"`. |
| Email.EscapeHtmlIsPerCharacter | apps/superadmin/src/lib/email.ts:116 | Because `&` is replaced first, the replace chain equals escaping each character on its own. |
| Email.EscapedHasNoMarkup | apps/superadmin/src/lib/email.ts:114-120 | `escapeHtml`'s output contains no `<`, `>` or `"`. |
| Email.ApostropheKept | apps/superadmin/src/lib/email.ts:115-119 | The apostrophe is not escaped. |
| Email.UnescapeRoundTrip | apps/superadmin/src/lib/email.ts:114-120 | Decoding the four entities recovers the input. |
| Email.PlainUnchanged | apps/superadmin/src/lib/email.ts:115-119 | Text without `& < > "` is unchanged. |
| Email.EscapeAmpersand | apps/superadmin/src/lib/email.ts:116 | `"&"` becomes `"&amp;"`. |
| Email.EscapeIdempotentIff | apps/superadmin/src/lib/email.ts:116 | Escaping twice equals escaping once iff the text has no `& < > "`. |
| Email.NameEscapedOnlyInHtml | apps/superadmin/src/lib/email.ts:35-41 | Each mail names the workspace verbatim in its subject and text, and escaped in its HTML. |
| Email.Mailer.Send | apps/superadmin/src/lib/email.ts:33-34 | Without a transport nothing is sent. Otherwise exactly the built mail is appended. |
| EnvUrls.StripTrailingSlash | apps/superadmin/src/lib/env.ts:6 | One trailing `/` at most is removed, and one is removed iff the value ends in `/`. |
| EnvUrls.UsableUrl | apps/superadmin/src/lib/env.ts:5-7 | Null iff unset or whitespace-only. Otherwise the untrimmed value minus one trailing `/`. |
| EnvUrls.GetWorkspaceUrl | apps/superadmin/src/lib/env.ts:1-9 | `WORKSPACE_APP_URL` wins when set. The public variable is used only when it is unset. |
| EnvUrls.GetSuperadminUrl | apps/workspace/src/lib/env.ts:1-7 | The superadmin URL follows the same usability rule. |
| EnvUrls.EmptyPrimaryDoesNotFallBack | apps/superadmin/src/lib/env.ts:2-4 | An empty primary setting gives null, not the fallback. |
| EnvUrls.EndsInSlashIff | apps/superadmin/src/lib/env.ts:6 | The result ends in `/` iff the setting ends in `//`. |
| EnvUrls.NoSlashVerbatim | apps/workspace/src/lib/env.ts:4 | A setting with no trailing `/` is returned unchanged, surrounding whitespace included. |
| EnvUrls.SpaceHidesSlash | apps/superadmin/src/lib/env.ts:5-6 | `"x/ "` keeps its slash. |
| SuperadminGate.RequireSuperadmin | apps/superadmin/src/app/actions/workspaces.ts:16-22 | See note 5 below the table. |
| SuperadminGate.GateMatchesAccessTable | apps/superadmin/src/app/actions/workspaces.ts:20 | The gate admits exactly the callers the superadmin app's role table admits. The copy of the gate in `apps/superadmin/src/app/actions/users.ts:10-16` is the same function. |
| WorkspaceActions.AdminAccountMapsToWorkspaceAdmin | apps/superadmin/src/app/actions/workspaces.ts:91-99 | The created account maps to a `workspace_admin` of exactly that workspace, who may use the workspace app only. |
| WorkspaceActions.StatusMail | apps/superadmin/src/app/actions/workspaces.ts:122-139 | See note 6 below the table. |
| WorkspaceActions.Backend.CreateWorkspace | apps/superadmin/src/app/actions/workspaces.ts:70-80 | See note 7 below the table. |
| WorkspaceActions.Backend.CreateWorkspaceAdminUser | apps/superadmin/src/app/actions/workspaces.ts:83-108 | See note 8 below the table. |
| WorkspaceActions.Backend.UpdateWorkspaceDisabled | apps/superadmin/src/app/actions/workspaces.ts:111-140 | See note 9 below the table. |
| WorkspaceActions.Backend.DeleteWorkspace | apps/superadmin/src/app/actions/workspaces.ts:152-157 | Gate first. An error is passed on. Otherwise the row is removed. The directory is unchanged either way. |
| WorkspaceActions.DashboardCounts | apps/superadmin/src/app/actions/workspaces.ts:25-39 | Succeeds iff the caller is a superadmin. Both counts default to 0. |
| WorkspaceActions.OwnerEmail | apps/superadmin/src/app/actions/workspaces.ts:53-57 | A non-blank `user_id` of a known account gives that account's e-mail, or null when it has none. A blank `user_id` or an unknown account gives null. |
| WorkspaceActions.ListWorkspaces | apps/superadmin/src/app/actions/workspaces.ts:42-67 | Gate, then the select error. On success, each row in order, with its owner address and lead count (0 when missing). |
| WorkspaceActions.Annotate | apps/superadmin/src/app/actions/workspaces.ts:51-65 | Annotating preserves the rows' length, order and contents. |
| WorkspaceActions.NotifyWorkspaceCreated | apps/superadmin/src/app/actions/workspaces.ts:143-149 | A refused caller sends nothing. Otherwise exactly the creation mail is sent, if a transport exists. |
| WorkspaceActions.GetWorkspaceLoginLink | apps/superadmin/src/app/actions/workspaces.ts:160-183 | See note 10 below the table. |
| WorkspaceActions.UrlCheckedBeforeAuth | apps/superadmin/src/app/actions/workspaces.ts:163-169 | A primary setting of `"/"` becomes `""`, and the action then fails with the missing-URL error for every caller. |
| WorkspaceActions.RedirectCarriesSelection | apps/superadmin/src/app/actions/workspaces.ts:171 | The redirect is `url + "/auth/enter?workspace_id=" + id`. Its id is accepted at the hand-off iff it is >= 1. |
| UserActions.ToRow | apps/superadmin/src/app/actions/users.ts:41-47 | Absent fields stay null, except `created_at`, which becomes `""`. |
| UserActions.Rows | apps/superadmin/src/app/actions/users.ts:40-48 | A page's rows are its users' rows, in page order. |
| UserActions.ListAllUsers | apps/superadmin/src/app/actions/users.ts:27-55 | Gate first. Then the pagination loop computes exactly the walk `Collect` from page 1. |
| UserActions.PushRows | apps/superadmin/src/app/actions/users.ts:40-48 | The inner loop appends the page's rows, in order. |
| UserActions.RowsComeFromDirectory | apps/superadmin/src/app/actions/users.ts:39-48 | Every listed row is the row of a user some fetched page returned. |
| UserActions.FailureIsAPageError | apps/superadmin/src/app/actions/users.ts:38 | A failed walk reports the message of a page it fetched, and discards the rows collected so far. |
| UserActions.LastPage | apps/superadmin/src/app/actions/users.ts:49-52 | A page that is not full, or names no next page, ends the walk. |
| UserActions.FullPageContinues | apps/superadmin/src/app/actions/users.ts:31-53 | A full first page naming page 2, followed by a final page, lists both pages' users in order. |
| LoginActions.SignIn | apps/workspace/src/app/login/actions.ts:6-41 | See note 11 below the table. |
| LoginActions.Admit | apps/workspace/src/app/login/actions.ts:23-40 | A refused role signs out and returns the no-access error. A role that passes but owns a disabled workspace signs out and returns the deactivated message. There is no refusal iff the role passes and the workspace is not disabled, and the session is then left as it was. |
| LoginActions.RoleCheckMatchesGuard | apps/workspace/src/app/login/actions.ts:23-24 | The sign-in role check admits exactly the roles the workspace guard admits. |
| LoginActions.AdmittedMemberPassesGuard | apps/workspace/src/app/login/actions.ts:29-40 | A non-superadmin who signs in successfully passes the workspace guard on every guarded path but `/login`. |
| LoginActions.SuperadminOwnerRefusedAtSignIn | apps/workspace/src/app/login/actions.ts:29-38 | A superadmin who owns a disabled workspace passes the role check. The guard would then admit them with a selection, but sign-in still refuses them as deactivated. |
| LoginPage.ReasonMessage | apps/workspace/src/app/login/page.tsx:17-29 | `deactivated`, `superadmin_no_workspace` and `invalid` map to their fixed messages. Any other non-empty code is shown decoded. An absent or empty code shows nothing. |
| LoginPage.GuardReasonsHaveMessages | apps/workspace/src/app/login/page.tsx:19-23 | Both reasons the workspace guard emits have dedicated messages. |
| LoginPage.LoginForm.ShowReason | apps/workspace/src/app/login/page.tsx:17-29 | The mapped message, if any, is shown. A sign-out happens iff the code is `deactivated` and there is a client. |
| LoginPage.LoginForm.Submit | apps/workspace/src/app/login/page.tsx:31-57 | See note 12 below the table. |
| ApiKeys.Hex | apps/workspace/src/app/actions/api-keys.ts:16 | `toString("hex")` gives two lowercase hex digits per byte. |
| ApiKeys.HexRoundTrip | apps/workspace/src/app/actions/api-keys.ts:16 | The bytes can be read back from their hex text. |
| ApiKeys.GenerateApiKey | apps/workspace/src/app/actions/api-keys.ts:14-17 | A key is `gst_` followed by `2n` hex digits. |
| ApiKeys.KeyDeterminesBytes | apps/workspace/src/app/actions/api-keys.ts:14-17 | Equal keys come from equal bytes. |
| ApiKeys.KeyPrefix | apps/workspace/src/app/actions/api-keys.ts:75 | The prefix is the key's first 8 characters, or all of a shorter key. |
| ApiKeys.FullLengthKey | apps/workspace/src/app/actions/api-keys.ts:11-17 | A 32-byte key has 68 characters. Its prefix is `gst_` plus its first 4 hex digits, and differs from the key. |
| ApiKeys.NormalizeOrigin | apps/workspace/src/app/actions/api-keys.ts:23-26 | The result is the trimmed, lower-cased input, with one trailing `/` removed if one is there. |
| ApiKeys.NormalizeNotIdempotent | apps/workspace/src/app/actions/api-keys.ts:23-26 | `"a//"` normalises to `"a/"` and then to `"a"`. |
| ApiKeys.NormalizeStable | apps/workspace/src/app/actions/api-keys.ts:23-26 | A result ending in neither `/` nor whitespace is a fixed point. |
| ApiKeys.NormalizeOrigins | apps/workspace/src/app/actions/api-keys.ts:67-69 | The list holds exactly the non-empty normalisations of the inputs, and is no longer than the input. |
| ApiKeys.BlankOriginsDropped | apps/workspace/src/app/actions/api-keys.ts:67-69 | Blank entries and a lone `/` disappear. |
| ApiKeys.RequireWorkspaceId | apps/workspace/src/app/actions/api-keys.ts:28-42 | See note 13 below the table. |
| ApiKeys.MemberIdUnchecked | apps/workspace/src/app/actions/api-keys.ts:39-41 | A member's stored id 0 is accepted, and the cookie is ignored. |
| ApiKeys.StoredName | apps/workspace/src/app/actions/api-keys.ts:80 | The name is stored trimmed, or null when blank. |
| ApiKeys.ApiKeyStore.RowsOf | apps/workspace/src/app/actions/api-keys.ts:51 | The workspace filter keeps exactly the workspace's rows, unchanged. |
| ApiKeys.ApiKeyStore.List | apps/workspace/src/app/actions/api-keys.ts:45-55 | Resolution first, then the select error. On success, exactly the resolved workspace's rows, each with every stored column, `key_hash` included. |
| ApiKeys.ApiKeyStore.Create | apps/workspace/src/app/actions/api-keys.ts:63-87 | See note 14 below the table. |
| ApiKeys.ApiKeyStore.Revoke | apps/workspace/src/app/actions/api-keys.ts:90-95 | Resolution first, then the delete error. Otherwise the row with that id goes, whatever its workspace. |
| ApiKeys.ApiKeyStore.UpdateOrigins | apps/workspace/src/app/actions/api-keys.ts:98-110 | Resolution first, then the update error. Otherwise only that row's origins are replaced by the normalised list, which may be empty. |
| LeadValidation.DigitCount | apps/workspace/src/lib/leadValidation.ts:8 | The digit count never exceeds the length. |
| LeadValidation.TrimKeepsDigits | apps/workspace/src/lib/leadValidation.ts:6-8 | Trimming keeps the digit count. |
| LeadValidation.ValidatePhone | apps/workspace/src/lib/leadValidation.ts:5-11 | A blank input gives "Phone is required.". Otherwise the result is an error iff there are fewer than 10 digits. |
| LeadValidation.PhoneCountsOnlyDigits | apps/workspace/src/lib/leadValidation.ts:4-10 | Two non-blank inputs with equal digit counts get the same verdict, whatever else they hold. |
| LeadValidation.ValidateWhatsApp | apps/workspace/src/lib/leadValidation.ts:22-28 | Blank input passes. Otherwise the result is an error iff there are fewer than 10 digits. |
| LeadValidation.EmailMatchesIff | apps/workspace/src/lib/leadValidation.ts:2 | The direct test agrees with the regular expression `local@domain.tld` on every string. |
| LeadValidation.ValidateEmail | apps/workspace/src/lib/leadValidation.ts:14-19 | A blank input gives "Email is required.". Otherwise the result is the format error iff the match fails. |
| LeadValidation.EmailAcceptedIff | apps/workspace/src/lib/leadValidation.ts:14-19 | An address is accepted iff the regular expression matches its trim. |
| LeadValidation.RegexHasOneAt | apps/workspace/src/lib/leadValidation.ts:2 | A matched address has exactly one `@`. |
| LeadValidation.ValidatorsSeeOnlyTrim | apps/workspace/src/lib/leadValidation.ts:5-28 | Each validator gives the same verdict on an input and on its trim. |
| LeadStatus.Values | apps/workspace/src/lib/constants.ts:13 | The values are the entries' values, position by position. |
| LeadStatus.Options | apps/workspace/src/lib/constants.ts:11 | The options are the entries' (value, label) pairs, position by position. |
| LeadStatus.Find | apps/workspace/src/lib/constants.ts:20-21 | `find` succeeds iff the value is listed, and returns an entry with that value. |
| LeadStatus.FromEntries | apps/workspace/src/lib/constants.ts:23-25 | The map's keys are exactly the listed values. |
| LeadStatus.MapAgreesWithFind | apps/workspace/src/lib/constants.ts:20-25 | With distinct values, the map and `find` agree on every listed value. |
| LeadStatus.LeadStatusValues | apps/workspace/src/lib/constants.ts:1-13 | The values are exactly `new, contacted, qualified, proposal, won, unqualified, lost`, in that order. |
| LeadStatus.LeadStatusOptions | apps/workspace/src/lib/constants.ts:11 | Seven options, in table order, with each entry's value and label. |
| LeadStatus.StatusValuesDistinct | apps/workspace/src/lib/constants.ts:1-9 | The seven values are pairwise distinct. |
| LeadStatus.CaseSensitive | apps/workspace/src/lib/constants.ts:17-18 | `won` is a status and `Won` is not. |
| LeadStatus.GetLeadStatusConfig | apps/workspace/src/lib/constants.ts:20-21 | An entry is found iff the status is valid. It is then a table entry with that value. |
| LeadStatus.LeadStatusMap | apps/workspace/src/lib/constants.ts:23-25 | The map's keys are exactly the valid statuses. |
| LeadStatus.MapMatchesConfig | apps/workspace/src/lib/constants.ts:20-25 | For a valid status, the map and the lookup give the same entry, whose value is that status. |
| ClassNames.Kept | apps/shared/src/utils/cn.ts:5 | The kept strings are non-empty, and there are no more of them than arguments. |
| ClassNames.KeptAppend | apps/shared/src/utils/cn.ts:5 | Filtering distributes over concatenation, so kept strings keep their order. |
| ClassNames.CnAppend | apps/shared/src/utils/cn.ts:5 | Joining two argument lists that each keep something puts exactly one space between them. |
| ClassNames.FalsyDropped | apps/shared/src/utils/cn.ts:4-5 | A falsy argument, or `""`, anywhere changes nothing. |
| ClassNames.AllFalsyEmpty | apps/shared/src/utils/cn.ts:5 | No arguments, or only falsy ones, give `""`. |
| ClassNames.SingleKept | apps/shared/src/utils/cn.ts:5 | One non-empty string comes back unchanged, whitespace included. |
| ClassNames.DuplicatesKept | apps/shared/src/utils/cn.ts:5 | Duplicates are not collapsed. |
| PublicLeads.GetApiKey | apps/workspace/src/app/api/public/leads/route.ts:25-33 | A non-blank trimmed `X-API-Key` wins. Otherwise an `Authorization` header starting, in any case, with `bearer ` gives its trimmed rest. Otherwise there is no key. |
| PublicLeads.BareBearerIsEmptyKey | apps/workspace/src/app/api/public/leads/route.ts:28-31 | `Bearer ` alone gives the empty key. |
| PublicLeads.GetOrigin | apps/workspace/src/app/api/public/leads/route.ts:36-54 | The trimmed `Origin` is used, else a parseable `Referer`'s origin, else the URL's origin, else `""`. |
| PublicLeads.SingleByHash | apps/workspace/src/app/api/public/leads/route.ts:123-137 | A row is found iff exactly one row has the hash, and it is that row. |
| PublicLeads.OptionalField | apps/workspace/src/app/api/public/leads/route.ts:244-250 | An optional field is stored trimmed, or null iff blank. |
| PublicLeads.BodyError | apps/workspace/src/app/api/public/leads/route.ts:181-237 | The body passes iff name, e-mail, phone, WhatsApp, channel and status all pass. |
| PublicLeads.ChoiceError | apps/workspace/src/app/api/public/leads/route.ts:205-237 | The channel and status checks pass iff the channel is empty or allowed and the status is valid. |
| PublicLeads.BodyCheckOrder | apps/workspace/src/app/api/public/leads/route.ts:181-203 | The body checks run in the order name, e-mail, phone, WhatsApp. Each failure, given that the earlier ones passed, is reported with its own error ("name is required." or the validator's message) and no options. Once all four pass, the channel and status checks decide. |
| PublicLeads.ChoiceCheckOrder | apps/workspace/src/app/api/public/leads/route.ts:205-237 | A channel that is set but not allowed is refused first, with the channel error and the four channels as options. Next an empty status gives "status is required." with no options. Last, an unknown status gets the status error with the seven statuses as options. |
| PublicLeads.BuildRow | apps/workspace/src/app/api/public/leads/route.ts:239-253 | The row holds the key's workspace, the trimmed required fields, the optional fields trimmed or null, `deal_value`, and `disabled` false. |
| PublicLeads.CheckBody | apps/workspace/src/app/api/public/leads/route.ts:181-253 | A body is refused iff some check fails, and then with a 400 carrying `BodyError`'s error and options. `BodyCheckOrder` and `ChoiceCheckOrder` fix which check those come from. Otherwise the built row is accepted. |
| PublicLeads.Check | apps/workspace/src/app/api/public/leads/route.ts:102-120 | A missing key gives 401. A key with no origin gives 400. |
| PublicLeads.AddCors | apps/workspace/src/app/api/public/leads/route.ts:93-99 | The raw request `Origin` is set iff it is non-empty. |
| PublicLeads.CorsHeaders | apps/workspace/src/app/api/public/leads/route.ts:12-20 | The three fixed preflight headers are set, and the origin header iff the origin is non-empty. |
| PublicLeads.Options | apps/workspace/src/app/api/public/leads/route.ts:84-90 | The preflight is an empty 204 carrying `corsResponse(origin)`. |
| PublicLeads.ActivityFor | apps/workspace/src/app/api/public/leads/route.ts:140-277 | One activity iff the new id is non-empty. It carries the lead's workspace and id, and it is tagged with `normalizeOrigin` of the caller's origin. |
| PublicLeads.LeadTables.Record | apps/workspace/src/app/api/public/leads/route.ts:255-280 | The lead and its activities are appended. |
| PublicLeads.LeadTables.Post | apps/workspace/src/app/api/public/leads/route.ts:92-287 | See note 15 below the table. |
| PublicLeads.CheckAcceptedIff | apps/workspace/src/app/api/public/leads/route.ts:102-253 | A request is accepted iff every check passes. The row is then built from the body and the key row's workspace. |
| PublicLeads.RefusalOrder | apps/workspace/src/app/api/public/leads/route.ts:123-179 | See note 16 below the table. |
| PublicLeads.LeadGoesToKeyWorkspace | apps/workspace/src/app/api/public/leads/route.ts:153-240 | An accepted lead belongs to the workspace of a key row with the presented key's hash. |
| PublicLeads.DisabledLookupFailsOpen | apps/workspace/src/app/api/public/leads/route.ts:155-167 | A disabled workspace is refused only when its lookup succeeds. |
| PublicLeads.CreatedKeyIsFound | apps/workspace/src/app/api/public/leads/route.ts:123-128 | A newly created key with a fresh hash is found by that hash. |
| PublicLeads.DuplicateHashInvalid | apps/workspace/src/app/api/public/leads/route.ts:124-137 | Two rows with the same hash make the key invalid. |
| PublicLeads.CreatedOriginAllowed | apps/workspace/src/app/api/public/leads/route.ts:139-143 | An origin entered at key creation that normalises stably admits callers with the same normal form. |
| PublicLeads.CorsEchoesRawOrigin | apps/workspace/src/app/api/public/leads/route.ts:93-99 | Every `POST` answer and the preflight carry the caller's raw `Origin`. |

Notes on the longer contracts:

1. **SetSelectionRoute.Get.** The checks run in order:
   - a bad or missing id gives 400 "Invalid workspace_id";
   - missing settings give 500 "Misconfigured";
   - no user gives 401 "Unauthorized";
   - a non-superadmin gives 403 "Forbidden".

   Each refusal is a fresh response without cookies. Status 200 happens iff every check passes. The body is then `{ok:true}` and the cookies are the provider's plus the selection cookie. The selection cookie holds the canonical decimal and reads back as the requested id.
2. **AuthEnter.AuthEnterPage.Effect.**
   - After `done` is set, a run changes nothing.
   - Missing settings give "App misconfigured".
   - A missing id or an empty fragment gives "Missing token or workspace".
   - In neither of those two cases is `done` set; in every later case it is.
   - Missing tokens give "Invalid link".
   - Otherwise the effect starts exactly one exchange: both tokens, and the endpoint URL with the encoded id.
3. **AuthContext.AuthProvider.SignOut.** The steps are the provider sign-out (with a client) and then the storage purge. The user is then null, so the value's role and workspace are null.
4. **Logout.ClearAuthStorage.**
   - Without a window, nothing changes.
   - A throwing `localStorage` stops everything.
   - A throwing `sessionStorage` leaves the purged `localStorage`.
   - Otherwise both storages hold exactly their non-`sb-` keys and entries.
5. **SuperadminGate.RequireSuperadmin.** No user gives "Unauthorized". A non-superadmin gives "Only superadmin can perform this action.". The gate succeeds iff the caller is a superadmin, and returns that caller.
6. **WorkspaceActions.StatusMail.** A mail is sent iff the re-read row has a non-empty `user_id` whose account has a non-empty e-mail, and the row has a non-empty name. It is the disabled mail iff `disabled`, otherwise the enabled mail. It goes to the owner's address and carries the row's name.
7. **WorkspaceActions.Backend.CreateWorkspace.** A refused caller changes nothing. An insert error is passed on and changes nothing. Otherwise a row with the name, owner the caller and `disabled` false is added under the new id.
8. **WorkspaceActions.Backend.CreateWorkspaceAdminUser.**
   - A refused caller changes nothing.
   - A provider error is passed on.
   - A missing user gives "User creation failed".
   - Otherwise the `workspace_admin` account is added.
   - An update error is then passed on, and the account stays.
   - Otherwise the row's owner becomes the new user, if the row exists.
9. **WorkspaceActions.Backend.UpdateWorkspaceDisabled.**
   - A refused caller changes nothing.
   - An update error is passed on, and no mail is sent.
   - Otherwise the flag is set if the row exists, and the action succeeds.
   - The mail sent, when a transport exists, is exactly the `StatusMail` of the re-read row and the owner's account.
   - The re-read and the owner lookup can fail: their errors are discarded. A failed re-read reads as no row, and a failed lookup as no account. Either failure means no mail, while the action still succeeds.
10. **WorkspaceActions.GetWorkspaceLoginLink.** A missing or empty URL fails first, for every caller. The gate comes next. The link is generated for the caller's own e-mail and the `RedirectTo` URL. A provider error is passed on, and a missing or empty link gives "Failed to generate link". A generated non-empty link is returned as the URL, and a success is only ever that link.
11. **LoginActions.SignIn.**
    - Missing credentials return the required message, with no provider call.
    - A provider error is returned verbatim.
    - A refused role signs out, then returns the access error.
    - An owned disabled workspace signs out, then returns the deactivated message.
    - Success happens iff every check passes, and leaves the provider user signed in.
12. **LoginPage.LoginForm.Submit.**
    - `signIn` is called iff the trimmed e-mail and the password are non-empty.
    - Otherwise the required message is shown.
    - A throw shows "Login failed".
    - A returned non-empty error is shown.
    - Otherwise the window goes to `/`.
    - Loading ends in every case.
13. **ApiKeys.RequireWorkspaceId.** No user gives "Unauthorized". A superadmin gets the accepted selection. Anyone else gets their own `workspace_id`. Every other failure is "Workspace not found".
14. **ApiKeys.ApiKeyStore.Create.**
    - Workspace resolution comes first.
    - If no origins remain, it fails with "At least one allowed website is required." and nothing is stored.
    - An insert error stores nothing.
    - On success it returns `gst_`+hex of the bytes. It stores one row holding the workspace, the name, `hash(key)`, the prefix and the normalised origins, and never the raw key.
15. **PublicLeads.LeadTables.Post.** Every answer carries the raw-origin CORS header.
    - A refusal answers with the check's status, error and options, and writes nothing.
    - An insert error gives 500 and writes nothing.
    - Otherwise it answers 201 with the new id, appends the lead, and appends its activity.
16. **PublicLeads.RefusalOrder.** Once key and origin are present, the refusals come in this order:
    - no unique key row gives 401 "Invalid API key.";
    - an origin not allowed gives 403;
    - a disabled workspace gives 403 with the deactivated message;
    - a body that is not JSON gives 400.

## Left out

- Identity-provider, database and mail-transport calls are not modelled as I/O. Their answers are parameters: the resolved user, error messages, assigned ids, a lookup that failed, and whether a transport is configured.
- Promise concurrency (`Promise.all` in `listWorkspaces` and `getDashboardCounts`) is left out. The model computes the same rows sequentially.
- Session lifetimes, `getClaims`, cookie expiry and the provider's own `signOut` storage effects are left out. The model records that `signOut` was called.
- SHA-256, `randomBytes`, `new URL(...)`, `URLSearchParams`, `encodeURIComponent` and `decodeURIComponent` are function parameters. A throwing `decodeURIComponent` (a malformed `%` escape on the login page) is not modelled.
- Integers are unbounded. `parseInt` is modelled exactly for decimal text. Its loss of precision above 2^53 and its `Infinity` results are not modelled. These would change which very long cookie values are accepted.
- `toLowerCase` is modelled for ASCII letters only. Unicode case mapping is not modelled.
- `deal_value` is an optional integer. JavaScript numbers with fractions are not modelled.
- MapProviderUser: a numeric `user_metadata.workspace_id` is modelled as an integer only (`JsonNumber(n: int)`). `client.ts:31-32` passes any JavaScript number through, including a fraction such as 2.5, `NaN` and `Infinity`. The model cannot represent those values and states nothing about users that carry them. The same holds for `MappedWorkspaceId` and for every guard and action that reads `workspace_id`. A number type with non-integer values would have to run through every one of them, so it is not modelled.
- Non-string JSON values in the lead body are left out. A number in `name`, say, makes `.trim()` throw, and the outer `catch` answers 500. The outer `catch` itself is left out.
- The error of the `lead_activities` insert is ignored by the source. The model records the activity whenever the lead was inserted with a non-empty id.
- List ordering by `created_at` is left out. The key listing is a map by id. The workspace listing keeps the order the rows were given in.
- A workspace's `user_id` that is null is modelled as the empty string. Both count as blank.
- The `disabled` default of a new workspace row is taken to be `false`. That default is set by the database and is not visible in the source.
- UserActions.ListAllUsers: the page walk is bounded by a `fuel` count of pages. When the fuel runs out, the walk ends with the rows collected so far. The source has no such bound.
- PublicLeads.Check: its own contract states only the first two refusals. The full if-and-only-if for acceptance is in `CheckAcceptedIff`, and the remaining refusals are in `RefusalOrder`. Each refusal's message text, beyond the status, is stated only in those two lemmas.
- The UI rendering of the login page, the hand-off page and the authentication provider is not modelled. Neither are the `status`/`errorMessage` displays. The model keeps their state, not their markup.
- Mail bodies are built as exact text for the three kinds, and the bodies of all three send functions are modelled (`Email.BuildMail`, `Email.NameEscapedOnlyInHtml`). What is absent is the `DEFAULT_FROM` sender address, the transport's `sendMail` call itself, and the error it may raise, which the send functions catch and log. `Mailer.Send` records the built mail as sent whenever a transport exists. The transporter cache is not modelled either.

## Discrepancies

These are places where the code differs from what its comments, tests or stated design promise. Each is proved about the code as written. No corrected variant is modelled, because the rest of the system relies on the behaviour as written.

- **The workspace app admits `superadmin`.** The doc comment at `apps/shared/src/auth/access.ts:6` and `apps/shared/src/auth/access.test.ts:16` say it must not, but the table at lines 12-16 lists it (`Access.WorkspaceAppAdmits`, `Access.AccessMatrix`).
- **Origin normalisation is not idempotent.** `"a//"` becomes `"a/"`, then `"a"` (`ApiKeys.NormalizeNotIdempotent`).
- **Updating a key's origins accepts a list that normalises to nothing.** Creation refuses such a list (`ApiKeys.ApiKeyStore.UpdateOrigins`, `ApiKeys.BlankOriginsDropped`).
- **Disabled-workspace lookups fail open**, in the guard, at sign-in and in the lead endpoint (`WorkspaceGuard.MissingWorkspaceRowIsEnabled`, `PublicLeads.DisabledLookupFailsOpen`).
- **Missing provider settings let every request through both guards** (`WorkspaceGuard.MissingEnvFailsOpen`, `SuperadminGuard.MissingEnvFailsOpen`).
- **CORS echoes the raw request `Origin`** on every answer, refusals and the preflight included, not only on matched origins (`PublicLeads.CorsEchoesRawOrigin`).
- **The key listing returns `key_hash`** (`ApiKeys.ApiKeyStore.List`).
- **Revoke and update act by id alone**, whatever workspace the row belongs to (`ApiKeys.ApiKeyStore.Revoke`, `ApiKeys.ApiKeyStore.UpdateOrigins`).
- **A non-superadmin's stored `workspace_id` is used with no lower bound**, unlike the selection cookie (`ApiKeys.MemberIdUnchecked`).
- **Sign-in's disabled-workspace check also applies to a superadmin who owns a disabled workspace**, while the guard never checks a superadmin (`LoginActions.SuperadminOwnerRefusedAtSignIn`).
- **A workspace URL setting of `"/"` becomes `""`**, which the login-link action then refuses as missing (`WorkspaceActions.UrlCheckedBeforeAuth`).
