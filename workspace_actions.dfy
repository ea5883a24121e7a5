/**
 * The superadmin application's workspace actions: every one is gated by
 * `requireSuperadmin`, and the writing ones update the workspace table, the
 * identity provider's user directory and the outgoing mail.
 */
module WorkspaceActions {
  import opened Base
  import opened Text
  import opened AuthTypes
  import Access
  import AuthClient
  import Email
  import Selection
  import EnvUrls
  import opened SuperadminGate

  const MISSING_WORKSPACE_URL: string := "Missing WORKSPACE_APP_URL or NEXT_PUBLIC_WORKSPACE_APP_URL in environment"
  const ENTER_PATH_QUERY: string := "/auth/enter?workspace_id="

  /** A row of the workspace table as these actions see it. */
  datatype WorkspaceRow = WorkspaceRow(name: string, userId: string, disabled: bool)

  /** The account `createWorkspaceAdminUser` asks the provider to create. */
  function AdminAccount(id: string, email: string, workspaceId: int): ProviderUser {
    ProviderUser(id, Some(email), Some(Metadata(Some(WORKSPACE_ADMIN), JsonNumber(workspaceId), None, None)))
  }

  /** The new account signs in as a workspace admin of exactly that workspace, admitted to the workspace application only. */
  lemma AdminAccountMapsToWorkspaceAdmin(id: string, email: string, workspaceId: int)
    ensures var u := AuthClient.MapProviderUser(Some(AdminAccount(id, email, workspaceId))).value;
      u.id == id && u.email == email && u.role == "workspace_admin" && u.workspaceId == Some(workspaceId)
      && Access.CanAccessApp(u.role, Access.WorkspaceApp) && !Access.CanAccessApp(u.role, Access.SuperadminApp)
  {
    Access.AccessMatrix();
  }

  /** Which mail `updateWorkspaceDisabled` sends after a successful update, given the re-read row and the owner's account. */
  function StatusMail(disabled: bool, row: Option<WorkspaceRow>, accounts: map<string, ProviderUser>):
    (m: Option<(Email.MailKind, string, string)>)
    ensures m.Some? ==> (m.value.0 == Email.WorkspaceDisabled <==> disabled)
    ensures m.Some? <==>
      (row.Some? && row.value.userId != "" && row.value.userId in accounts
       && accounts[row.value.userId].email.Some? && accounts[row.value.userId].email.value != ""
       && row.value.name != "")
    ensures m.Some? ==> m.value.1 == accounts[row.value.userId].email.value && m.value.2 == row.value.name
  {
    if row.None? || row.value.userId == "" || row.value.userId !in accounts then None
    else
      var email := accounts[row.value.userId].email;
      if email.None? || email.value == "" || row.value.name == "" then None
      else Some((if disabled then Email.WorkspaceDisabled else Email.WorkspaceEnabled, email.value, row.value.name))
  }

  function Lookup(rows: map<int, WorkspaceRow>, id: int): Option<WorkspaceRow> {
    if id in rows then Some(rows[id]) else None
  }

  /** The re-read row: `null` when the read failed, otherwise the row as it now stands. */
  function Reread(rows: map<int, WorkspaceRow>, id: int, failed: bool): Option<WorkspaceRow> {
    if failed then None else Lookup(rows, id)
  }

  /** The accounts `getUserById` can see: none when the lookup failed. */
  function OwnerAccounts(accounts: map<string, ProviderUser>, failed: bool): map<string, ProviderUser> {
    if failed then map[] else accounts
  }

  /** The data the actions write: the workspace table and the provider's user directory. */
  class Backend {
    var workspaces: map<int, WorkspaceRow>
    var accounts: map<string, ProviderUser>

    constructor (workspaces: map<int, WorkspaceRow>, accounts: map<string, ProviderUser>)
      ensures this.workspaces == workspaces && this.accounts == accounts
    {
      this.workspaces := workspaces;
      this.accounts := accounts;
    }

    /** `createWorkspace(name)`: the caller becomes the initial owner. `newId` is the id the table assigns. */
    method CreateWorkspace(caller: Option<User>, name: string, newId: int, insertError: Option<string>)
      returns (r: Result<int>)
      modifies this
      requires newId !in workspaces
      ensures accounts == old(accounts)
      ensures RequireSuperadmin(caller).Failure? ==>
        r == Failure(RequireSuperadmin(caller).error) && workspaces == old(workspaces)
      ensures RequireSuperadmin(caller).Success? && insertError.Some? ==>
        r == Failure(insertError.value) && workspaces == old(workspaces)
      ensures RequireSuperadmin(caller).Success? && insertError.None? ==>
        r == Success(newId) && workspaces == old(workspaces)[newId := WorkspaceRow(name, caller.value.id, false)]
      ensures r.Success? ==> RequireSuperadmin(caller).Success?
    {
      var gate := RequireSuperadmin(caller);
      if gate.Failure? {
        return Failure(gate.error);
      }
      if insertError.Some? {
        return Failure(insertError.value);
      }
      workspaces := workspaces[newId := WorkspaceRow(name, gate.value.id, false)];
      return Success(newId);
    }

    /**
     * `createWorkspaceAdminUser(workspaceId, email, password)`: create the
     * account, then make it the workspace's owner. `newUserId` is the id the
     * provider returns (`None` for no user); the password is the provider's.
     */
    method CreateWorkspaceAdminUser(caller: Option<User>, workspaceId: int, email: string,
                                    createError: Option<string>, newUserId: Option<string>,
                                    updateError: Option<string>) returns (r: Result<()>)
      modifies this
      requires newUserId.Some? ==> newUserId.value !in accounts
      ensures RequireSuperadmin(caller).Failure? ==>
        r == Failure(RequireSuperadmin(caller).error) && unchanged(this)
      ensures RequireSuperadmin(caller).Success? && createError.Some? ==>
        r == Failure(createError.value) && unchanged(this)
      ensures RequireSuperadmin(caller).Success? && createError.None? && newUserId.None? ==>
        r == Failure("User creation failed") && unchanged(this)
      ensures RequireSuperadmin(caller).Success? && createError.None? && newUserId.Some? ==>
        accounts == old(accounts)[newUserId.value := AdminAccount(newUserId.value, email, workspaceId)]
      ensures RequireSuperadmin(caller).Success? && createError.None? && newUserId.Some? && updateError.Some? ==>
        r == Failure(updateError.value) && workspaces == old(workspaces)
      ensures RequireSuperadmin(caller).Success? && createError.None? && newUserId.Some? && updateError.None? ==>
        r == Success(())
        && workspaces == (if workspaceId in old(workspaces)
                          then old(workspaces)[workspaceId := old(workspaces)[workspaceId].(userId := newUserId.value)]
                          else old(workspaces))
    {
      var gate := RequireSuperadmin(caller);
      if gate.Failure? {
        return Failure(gate.error);
      }
      if createError.Some? {
        return Failure(createError.value);
      }
      if newUserId.None? {
        return Failure("User creation failed");
      }
      var id := newUserId.value;
      accounts := accounts[id := AdminAccount(id, email, workspaceId)];
      if updateError.Some? {
        return Failure(updateError.value);
      }
      if workspaceId in workspaces {
        workspaces := workspaces[workspaceId := workspaces[workspaceId].(userId := id)];
      }
      return Success(());
    }

    /**
     * `updateWorkspaceDisabled(workspaceId, disabled)`: update the flag,
     * re-read the row, mail its owner. `rereadFailed` and `ownerLookupFailed`
     * say whether the re-read (`.single()`) or `getUserById` failed; the source
     * discards both errors, so a failed read only means no mail.
     */
    method UpdateWorkspaceDisabled(caller: Option<User>, workspaceId: int, disabled: bool,
                                   updateError: Option<string>, rereadFailed: bool, ownerLookupFailed: bool,
                                   mailer: Email.Mailer) returns (r: Result<()>)
      modifies this, mailer
      ensures accounts == old(accounts)
      ensures RequireSuperadmin(caller).Failure? ==>
        r == Failure(RequireSuperadmin(caller).error) && workspaces == old(workspaces) && mailer.sent == old(mailer.sent)
      ensures RequireSuperadmin(caller).Success? && updateError.Some? ==>
        r == Failure(updateError.value) && workspaces == old(workspaces) && mailer.sent == old(mailer.sent)
      ensures RequireSuperadmin(caller).Success? && updateError.None? ==>
        r == Success(())
        && workspaces == (if workspaceId in old(workspaces)
                          then old(workspaces)[workspaceId := old(workspaces)[workspaceId].(disabled := disabled)]
                          else old(workspaces))
        && var m := StatusMail(disabled, Reread(workspaces, workspaceId, rereadFailed), OwnerAccounts(accounts, ownerLookupFailed));
           mailer.sent == old(mailer.sent) + (if m.Some? && mailer.configured then [Email.BuildMail(m.value.0, m.value.1, m.value.2)] else [])
      ensures RequireSuperadmin(caller).Success? && updateError.None? && (rereadFailed || ownerLookupFailed) ==>
        r == Success(()) && mailer.sent == old(mailer.sent)
    {
      var gate := RequireSuperadmin(caller);
      if gate.Failure? {
        return Failure(gate.error);
      }
      if updateError.Some? {
        return Failure(updateError.value);
      }
      if workspaceId in workspaces {
        workspaces := workspaces[workspaceId := workspaces[workspaceId].(disabled := disabled)];
      }
      var m := StatusMail(disabled, Reread(workspaces, workspaceId, rereadFailed), OwnerAccounts(accounts, ownerLookupFailed));
      if m.Some? {
        mailer.Send(m.value.0, m.value.1, m.value.2);
      }
      return Success(());
    }

    /** `deleteWorkspace(workspaceId)`. */
    method DeleteWorkspace(caller: Option<User>, workspaceId: int, deleteError: Option<string>) returns (r: Result<()>)
      modifies this
      ensures accounts == old(accounts)
      ensures RequireSuperadmin(caller).Failure? ==>
        r == Failure(RequireSuperadmin(caller).error) && workspaces == old(workspaces)
      ensures RequireSuperadmin(caller).Success? && deleteError.Some? ==>
        r == Failure(deleteError.value) && workspaces == old(workspaces)
      ensures RequireSuperadmin(caller).Success? && deleteError.None? ==>
        r == Success(()) && workspaces == old(workspaces) - {workspaceId}
    {
      var gate := RequireSuperadmin(caller);
      if gate.Failure? {
        return Failure(gate.error);
      }
      if deleteError.Some? {
        return Failure(deleteError.value);
      }
      workspaces := workspaces - {workspaceId};
      return Success(());
    }
  }

  /** `getDashboardCounts()`: a missing count reads as 0. */
  function DashboardCounts(caller: Option<User>, workspacesCount: Option<nat>, leadsCount: Option<nat>):
    (r: Result<(nat, nat)>)
    ensures r.Success? <==> RequireSuperadmin(caller).Success?
    ensures r.Failure? ==> r.error == RequireSuperadmin(caller).error
    ensures r.Success? ==> r.value.0 == workspacesCount.GetOr(0) && r.value.1 == leadsCount.GetOr(0)
  {
    var gate := RequireSuperadmin(caller);
    if gate.Failure? then Failure(gate.error)
    else Success((workspacesCount.GetOr(0), leadsCount.GetOr(0)))
  }

  /** A row of `listWorkspaces()`: the stored row, its owner's e-mail address and its lead count. */
  datatype ListedWorkspace = ListedWorkspace(id: int, row: WorkspaceRow, ownerEmail: Option<string>, leadsCount: nat)

  /** The owner address is looked up only for a non-blank `user_id`; an unknown account gives `null`. */
  function OwnerEmail(userId: string, accounts: map<string, ProviderUser>): (r: Option<string>)
    ensures r.Some? ==> Trim(userId) != "" && userId in accounts && accounts[userId].email == r
    ensures Trim(userId) != "" && userId in accounts ==> r == accounts[userId].email
    ensures Trim(userId) == "" || userId !in accounts ==> r.None?
  {
    if Trim(userId) != "" && userId in accounts then accounts[userId].email else None
  }

  /**
   * `listWorkspaces()`. `rows` is what the select returned, already in
   * `created_at` descending order, or the select's error; `leadCounts` holds
   * the per-workspace lead counts (a missing count reads as 0).
   */
  function ListWorkspaces(caller: Option<User>, rows: Result<seq<(int, WorkspaceRow)>>,
                          accounts: map<string, ProviderUser>, leadCounts: map<int, nat>):
    (r: Result<seq<ListedWorkspace>>)
    ensures RequireSuperadmin(caller).Failure? ==> r == Failure(RequireSuperadmin(caller).error)
    ensures RequireSuperadmin(caller).Success? && rows.Failure? ==> r == Failure(rows.error)
    ensures r.Success? ==> RequireSuperadmin(caller).Success? && rows.Success?
    ensures r.Success? ==> |r.value| == |rows.value|
    ensures r.Success? ==>
      forall i :: 0 <= i < |r.value| ==>
        r.value[i].id == rows.value[i].0 && r.value[i].row == rows.value[i].1
        && r.value[i].ownerEmail == OwnerEmail(rows.value[i].1.userId, accounts)
        && r.value[i].leadsCount == (if rows.value[i].0 in leadCounts then leadCounts[rows.value[i].0] else 0)
  {
    var gate := RequireSuperadmin(caller);
    if gate.Failure? then Failure(gate.error)
    else if rows.Failure? then Failure(rows.error)
    else Success(Annotate(rows.value, accounts, leadCounts))
  }

  /** One listed row: the row, its owner's address and its lead count (0 when missing). */
  function Listed(entry: (int, WorkspaceRow), accounts: map<string, ProviderUser>, leadCounts: map<int, nat>):
    ListedWorkspace
  {
    ListedWorkspace(entry.0, entry.1, OwnerEmail(entry.1.userId, accounts),
                    if entry.0 in leadCounts then leadCounts[entry.0] else 0)
  }

  function Annotate(rows: seq<(int, WorkspaceRow)>, accounts: map<string, ProviderUser>, leadCounts: map<int, nat>):
    (r: seq<ListedWorkspace>)
    ensures |r| == |rows|
    ensures forall i :: 0 <= i < |r| ==> r[i] == Listed(rows[i], accounts, leadCounts)
  {
    if rows == [] then []
    else [Listed(rows[0], accounts, leadCounts)] + Annotate(rows[1..], accounts, leadCounts)
  }

  /** `notifyWorkspaceCreated(workspaceName, adminEmail)`. */
  method NotifyWorkspaceCreated(caller: Option<User>, workspaceName: string, adminEmail: string, mailer: Email.Mailer)
    returns (r: Result<()>)
    modifies mailer
    ensures RequireSuperadmin(caller).Failure? ==>
      r == Failure(RequireSuperadmin(caller).error) && mailer.sent == old(mailer.sent)
    ensures RequireSuperadmin(caller).Success? ==>
      r == Success(())
      && mailer.sent == old(mailer.sent)
         + (if mailer.configured then [Email.BuildMail(Email.WorkspaceCreated, adminEmail, workspaceName)] else [])
  {
    var gate := RequireSuperadmin(caller);
    if gate.Failure? {
      return Failure(gate.error);
    }
    mailer.Send(Email.WorkspaceCreated, adminEmail, workspaceName);
    return Success(());
  }

  /** Where the magic link lands: the hand-off page of the workspace application, carrying the id. */
  function RedirectTo(workspaceUrl: string, workspaceId: int): string {
    workspaceUrl + ENTER_PATH_QUERY + IntString(workspaceId)
  }

  /** What the provider's `generateLink` returns: an error, or data with or without an `action_link`. */
  datatype LinkResult = LinkError(message: string) | Generated(actionLink: Option<string>)

  /** `if (!workspaceUrl)`: both `null` and the empty string count as missing. */
  predicate UrlSet(workspaceUrl: Option<string>) {
    workspaceUrl.Some? && workspaceUrl.value != ""
  }

  /**
   * `getWorkspaceLoginLink(workspaceId)`. `workspaceUrl` is `getWorkspaceUrl()`;
   * `generate(email, redirectTo)` is the provider's magic-link generation.
   */
  function GetWorkspaceLoginLink(workspaceUrl: Option<string>, caller: Option<User>, workspaceId: int,
                                 generate: (string, string) -> LinkResult): (r: Result<string>)
    ensures (workspaceUrl.None? || workspaceUrl == Some("")) ==>
      r == Failure("Missing WORKSPACE_APP_URL or NEXT_PUBLIC_WORKSPACE_APP_URL in environment")
    ensures UrlSet(workspaceUrl) && RequireSuperadmin(caller).Failure? ==> r == Failure(RequireSuperadmin(caller).error)
    ensures r.Success? ==>
      (UrlSet(workspaceUrl) && RequireSuperadmin(caller).Success?
       && generate(caller.value.email, RedirectTo(workspaceUrl.value, workspaceId)) == Generated(Some(r.value))
       && r.value != "")
    ensures UrlSet(workspaceUrl) && RequireSuperadmin(caller).Success? ==>
      var g := generate(caller.value.email, RedirectTo(workspaceUrl.value, workspaceId));
      (g.LinkError? ==> r == Failure(g.message))
      && (g.Generated? && (g.actionLink.None? || g.actionLink == Some("")) ==> r == Failure("Failed to generate link"))
      && (g.Generated? && g.actionLink.Some? && g.actionLink.value != "" ==> r == Success(g.actionLink.value))
  {
    if !UrlSet(workspaceUrl) then Failure(MISSING_WORKSPACE_URL)
    else
      var gate := RequireSuperadmin(caller);
      if gate.Failure? then Failure(gate.error)
      else
        var g := generate(gate.value.email, RedirectTo(workspaceUrl.value, workspaceId));
        if g.LinkError? then Failure(g.message)
        else if g.actionLink.None? || g.actionLink.value == "" then Failure("Failed to generate link")
        else Success(g.actionLink.value)
  }

  /**
   * The URL check comes first: without a usable workspace URL even an
   * anonymous caller gets the configuration error. A setting of `"/"` passes
   * the trim test of `getWorkspaceUrl` but strips to `""`, which this check
   * then refuses.
   */
  lemma UrlCheckedBeforeAuth(primary: Option<string>, fallback: Option<string>, caller: Option<User>,
                             workspaceId: int, generate: (string, string) -> LinkResult)
    requires primary == Some("/")
    ensures EnvUrls.GetWorkspaceUrl(primary, fallback) == Some("")
    ensures GetWorkspaceLoginLink(EnvUrls.GetWorkspaceUrl(primary, fallback), caller, workspaceId, generate)
      == Failure(MISSING_WORKSPACE_URL)
  {
    SlashSettingStripsToEmpty(primary, fallback);
  }

  lemma SlashSettingStripsToEmpty(primary: Option<string>, fallback: Option<string>)
    requires primary == Some("/")
    ensures EnvUrls.GetWorkspaceUrl(primary, fallback) == Some("")
  {
    TrimOfTrimmed("/");
    assert "/"[..0] == "";
  }

  /**
   * The id in the redirect reads back, under the selection rule, as the
   * workspace itself when it is a valid id and as no selection otherwise.
   */
  lemma RedirectCarriesSelection(workspaceUrl: string, workspaceId: int)
    ensures RedirectTo(workspaceUrl, workspaceId) == workspaceUrl + "/auth/enter?workspace_id=" + IntString(workspaceId)
    ensures Selection.ParseSelection(Some(IntString(workspaceId))) ==
      (if workspaceId >= 1 then Some(workspaceId) else None)
  {
    IntStringParses(workspaceId);
  }
}
