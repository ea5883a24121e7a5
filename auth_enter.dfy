/**
 * The `/auth/enter` hand-off page: it receives a magic-link session in the
 * URL fragment, installs it, records the workspace selection through the
 * selection endpoint and navigates home. The page's React state is a class;
 * its effect and the settling of its promise chain are methods.
 */
module AuthEnter {
  import opened Base

  const SET_SELECTION_URL: string := "/api/auth/set-superadmin-workspace?workspace_id="

  datatype PageStatus = Loading | Error

  /** A value a rejected promise carries: an `Error` with its message, or anything else. */
  datatype Thrown = ErrorValue(message: string) | OtherValue

  /** The session exchange the effect starts: `setSession` with both tokens, then a GET of `fetchUrl`. */
  datatype Exchange = Exchange(accessToken: string, refreshToken: string, fetchUrl: string)

  /** How the chain `setSession(...).then(fetch).then(check)` settles. */
  datatype Settlement =
    | SessionRejected(reason: Thrown)
    | FetchRejected(reason: Thrown)
    | Responded(ok: bool)

  /** The message shown when the chain ends in its `catch`, or `None` when it navigates home instead. */
  function FailureMessage(s: Settlement): (m: Option<string>)
    ensures m.None? <==> s == Responded(true)
    ensures s == Responded(false) ==> m == Some("Failed to set workspace")
    ensures (s.SessionRejected? || s.FetchRejected?) && s.reason.ErrorValue? ==> m == Some(s.reason.message)
    ensures (s.SessionRejected? || s.FetchRejected?) && s.reason.OtherValue? ==> m == Some("Something went wrong")
  {
    match s
    case Responded(ok) => if ok then None else Some("Failed to set workspace")
    case SessionRejected(ErrorValue(msg)) => Some(msg)
    case FetchRejected(ErrorValue(msg)) => Some(msg)
    case _ => Some("Something went wrong")
  }

  /** `workspaceId && hash`: a non-empty query parameter and a non-empty fragment. */
  predicate Present(workspaceId: Option<string>, hash: string) {
    workspaceId.Some? && workspaceId.value != "" && hash != ""
  }

  /** `access_token && refresh_token`: both fragment parameters present and non-empty. */
  predicate TokensPresent(accessToken: Option<string>, refreshToken: Option<string>) {
    accessToken.Some? && accessToken.value != "" && refreshToken.Some? && refreshToken.value != ""
  }

  class AuthEnterPage {
    var status: PageStatus
    var errorMessage: Option<string>
    /** The `done` ref. */
    var done: bool
    /** Where `window.location.href` was sent, if anywhere. */
    var location: Option<string>

    constructor ()
      ensures status == Loading && errorMessage == None && !done && location == None
    {
      status := Loading;
      errorMessage := None;
      done := false;
      location := None;
    }

    /**
     * One run of the effect. `hash` is `window.location.hash` (`""` without a
     * window), `workspaceId` the query parameter, and `accessToken` and
     * `refreshToken` what the fragment's parameters yield; `encode` is
     * `encodeURIComponent`. Returns the exchange it starts, if any.
     */
    method Effect(envPresent: bool, hash: string, workspaceId: Option<string>,
                  accessToken: Option<string>, refreshToken: Option<string>,
                  encode: string -> string) returns (started: Option<Exchange>)
      modifies this
      ensures location == old(location)
      ensures old(done) ==>
        started.None? && done && status == old(status) && errorMessage == old(errorMessage)
      ensures !old(done) && !envPresent ==>
        started.None? && !done && status == Error && errorMessage == Some("App misconfigured")
      ensures !old(done) && envPresent && !Present(workspaceId, hash) ==>
        started.None? && !done && status == Error && errorMessage == Some("Missing token or workspace")
      ensures !old(done) && envPresent && Present(workspaceId, hash) ==> done
      ensures !old(done) && envPresent && Present(workspaceId, hash) && !TokensPresent(accessToken, refreshToken) ==>
        started.None? && status == Error && errorMessage == Some("Invalid link")
      ensures started.Some? <==>
        !old(done) && envPresent && Present(workspaceId, hash) && TokensPresent(accessToken, refreshToken)
      ensures started.Some? ==>
        started.value == Exchange(accessToken.value, refreshToken.value, SET_SELECTION_URL + encode(workspaceId.value))
        && status == old(status) && errorMessage == old(errorMessage)
    {
      if done {
        return None;
      }
      if !envPresent {
        status := Error;
        errorMessage := Some("App misconfigured");
        return None;
      }
      if !Present(workspaceId, hash) {
        status := Error;
        errorMessage := Some("Missing token or workspace");
        return None;
      }
      done := true;
      if !TokensPresent(accessToken, refreshToken) {
        status := Error;
        errorMessage := Some("Invalid link");
        return None;
      }
      started := Some(Exchange(accessToken.value, refreshToken.value, SET_SELECTION_URL + encode(workspaceId.value)));
    }

    /** The started exchange settles: navigate home on an ok response, otherwise show the error. */
    method Settle(s: Settlement)
      modifies this
      ensures done == old(done)
      ensures s == Responded(true) ==>
        location == Some("/") && status == old(status) && errorMessage == old(errorMessage)
      ensures s != Responded(true) ==>
        location == old(location) && status == Error && errorMessage == FailureMessage(s)
    {
      var m := FailureMessage(s);
      if m.None? {
        location := Some("/");
      } else {
        status := Error;
        errorMessage := m;
      }
    }
  }
}
