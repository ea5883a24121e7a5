/**
 * The shared authentication context: the provider component's state
 * (`user`, `isLoading`, and each effect run's `mounted` flag and subscription), the
 * value it derives from that state, `signOut`, and `useAuth`.
 */
module AuthContext {
  import opened Base
  import opened AuthTypes
  import Logout

  /** The data part of `AuthContextValue`; the `signOut` callback and the client are left out. */
  datatype ContextValue = ContextValue(user: Option<User>, role: Option<Role>, workspaceId: Option<int>, isLoading: bool)

  /** `role: user?.role ?? null`. */
  function ContextRole(user: Option<User>): (r: Option<Role>)
    ensures r.None? <==> user.None?
    ensures r.Some? ==> r.value == user.value.role
  {
    if user.Some? then Some(user.value.role) else None
  }

  /**
   * `workspaceId`: the superadmin's selection when the user is a superadmin
   * and a selection was handed in, otherwise the user's own workspace.
   */
  function ContextWorkspaceId(user: Option<User>, selection: Option<int>): (w: Option<int>)
    ensures user.Some? && user.value.role == SUPERADMIN && selection.Some? ==> w == selection
    ensures !(user.Some? && user.value.role == SUPERADMIN && selection.Some?) ==>
      w == (if user.Some? then user.value.workspaceId else None)
  {
    if user.Some? && user.value.role == SUPERADMIN && selection.Some? then selection
    else if user.Some? then user.value.workspaceId
    else None
  }

  /** A non-superadmin's workspace never comes from the selection. */
  lemma SelectionIgnoredForOthers(user: Option<User>, a: Option<int>, b: Option<int>)
    requires user.None? || user.value.role != SUPERADMIN
    ensures ContextWorkspaceId(user, a) == ContextWorkspaceId(user, b)
  {
  }

  /** The selection is used exactly when the user is a superadmin and one was handed in. */
  lemma SelectionUsedIff(u: User, selection: Option<int>)
    requires u.workspaceId != selection
    ensures ContextWorkspaceId(Some(u), selection) == selection <==> u.role == SUPERADMIN && selection.Some?
  {
  }

  /** The derived value always agrees with the state it is derived from. */
  function Derive(user: Option<User>, isLoading: bool, selection: Option<int>): (v: ContextValue)
    ensures v.user == user && v.isLoading == isLoading
    ensures v.role == ContextRole(user) && v.workspaceId == ContextWorkspaceId(user, selection)
  {
    ContextValue(user, ContextRole(user), ContextWorkspaceId(user, selection), isLoading)
  }

  /** One run of the provider's effect: its own `let mounted` and whether its subscription is live. */
  datatype EffectRun = EffectRun(mounted: bool, subscribed: bool)

  /** `AuthProvider`: one instance with its client (or none) and the layout's selection. */
  class AuthProvider {
    const hasClient: bool
    /** `initialSuperadminWorkspaceId`, `null` by default. */
    const selection: Option<int>
    var user: Option<User>
    var isLoading: bool
    /** Every run of the effect that got past the no-client return, numbered from 0 in the order they ran. */
    var runs: seq<EffectRun>

    constructor (hasClient: bool, selection: Option<int>)
      ensures this.hasClient == hasClient && this.selection == selection
      ensures user.None? && isLoading && runs == []
    {
      this.hasClient := hasClient;
      this.selection := selection;
      user := None;
      isLoading := true;
      runs := [];
    }

    /** The memoised context value. */
    function Value(): ContextValue
      reads this
    {
      Derive(user, isLoading, selection)
    }

    /**
     * The effect body: without a client loading ends at once and no run is
     * recorded; otherwise a new run starts mounted, its `init` starts and its
     * subscription opens. `run` is the new run's number.
     */
    method Mount() returns (run: Option<nat>)
      modifies this
      ensures user == old(user)
      ensures !hasClient ==> run.None? && !isLoading && runs == old(runs)
      ensures hasClient ==>
        run == Some(|old(runs)|) && runs == old(runs) + [EffectRun(true, true)] && isLoading == old(isLoading)
    {
      if !hasClient {
        isLoading := false;
        return None;
      }
      run := Some(|runs|);
      runs := runs + [EffectRun(true, true)];
    }

    /**
     * `init` of run `run` resolves to `u`: both updates are skipped once that
     * run's own `mounted` is false, whatever later runs did.
     */
    method InitResolved(run: nat, u: Option<User>)
      modifies this
      requires run < |runs|
      ensures runs == old(runs)
      ensures runs[run].mounted ==> user == u && !isLoading
      ensures !runs[run].mounted ==> user == old(user) && isLoading == old(isLoading)
    {
      if runs[run].mounted {
        user := u;
      }
      if runs[run].mounted {
        isLoading := false;
      }
    }

    /** An auth-state event on run `run`'s live subscription: `refreshUser` starts only while that run is mounted. */
    method AuthStateChanged(run: nat) returns (refreshStarted: bool)
      modifies this
      requires run < |runs| && runs[run].subscribed
      ensures runs == old(runs) && user == old(user) && isLoading == old(isLoading)
      ensures refreshStarted == (runs[run].mounted && hasClient)
    {
      refreshStarted := runs[run].mounted && hasClient;
    }

    /** `refreshUser`'s `getCurrentUser` resolves to `u`; unlike `init` it does not consult `mounted`. */
    method RefreshResolved(u: Option<User>)
      modifies this
      ensures user == u && isLoading == old(isLoading)
      ensures runs == old(runs)
    {
      user := u;
    }

    /** The cleanup of the latest run: that run is unmounted and unsubscribed, earlier runs are left as they were. */
    method Cleanup()
      modifies this
      requires runs != []
      ensures runs == old(runs)[|old(runs)| - 1 := EffectRun(false, false)]
      ensures user == old(user) && isLoading == old(isLoading)
    {
      runs := runs[|runs| - 1 := EffectRun(false, false)];
    }

    /** `signOut`: `performLogout(client)`, then the user is cleared. */
    method SignOut(hasWindow: bool, local: Logout.WebStorage, session: Logout.WebStorage,
                   localThrows: bool, sessionThrows: bool) returns (steps: seq<Logout.LogoutStep>)
      modifies this, local, session
      requires local != session && local.Valid() && session.Valid()
      ensures steps == (if hasClient then [Logout.ProviderSignOut, Logout.PurgeStorage] else [Logout.PurgeStorage])
      ensures user.None? && isLoading == old(isLoading)
      ensures runs == old(runs)
      ensures Value().role.None? && Value().workspaceId.None?
      ensures local.Valid() && session.Valid()
      ensures hasWindow && !localThrows ==>
        local.keys == Logout.KeptKeys(old(local.keys)) && local.items == Logout.KeptItems(old(local.items))
      ensures hasWindow && !localThrows && !sessionThrows ==>
        session.keys == Logout.KeptKeys(old(session.keys)) && session.items == Logout.KeptItems(old(session.items))
    {
      steps := Logout.PerformLogout(hasClient, hasWindow, local, session, localThrows, sessionThrows);
      user := None;
    }
  }

  /**
   * A remount (the effect cleaned up and run again, as React does twice in
   * development): the first run's late `init` is skipped, and only the second
   * run's result reaches the state.
   */
  method RemountIgnoresStaleInit(stale: Option<User>, latest: Option<User>)
    returns (afterStale: Option<User>, loadingAfterStale: bool, afterLatest: Option<User>, loadingAfterLatest: bool)
    ensures afterStale.None? && loadingAfterStale
    ensures afterLatest == latest && !loadingAfterLatest
  {
    var p := new AuthProvider(true, None);
    var first := p.Mount();
    p.Cleanup();
    var second := p.Mount();
    p.InitResolved(first.value, stale);
    afterStale, loadingAfterStale := p.user, p.isLoading;
    p.InitResolved(second.value, latest);
    afterLatest, loadingAfterLatest := p.user, p.isLoading;
  }

  /** `useAuth()`: the nearest provider's value, or the error thrown outside any provider. */
  function UseAuth(ctx: Option<ContextValue>): (r: Result<ContextValue>)
    ensures ctx.None? <==> r == Failure("useAuth must be used within AuthProvider")
    ensures ctx.Some? ==> r == Success(ctx.value)
  {
    match ctx
    case None => Failure("useAuth must be used within AuthProvider")
    case Some(v) => Success(v)
  }
}
