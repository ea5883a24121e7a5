/**
 * The two application-URL settings: the workspace application's URL as the
 * superadmin application reads it, and the superadmin application's URL as
 * the workspace application reads it.
 */
module EnvUrls {
  import opened Base
  import opened Text

  /** `raw.replace(/\/$/, "")`: one `/` at the very end is removed. */
  function StripTrailingSlash(raw: string): (r: string)
    ensures raw == r || raw == r + "/"
    ensures (raw != [] && raw[|raw| - 1] == '/') <==> r + "/" == raw
  {
    if raw != [] && raw[|raw| - 1] == '/' then raw[..|raw| - 1] else raw
  }

  /** A setting is used when it is a string whose trim is non-empty; the value itself is not trimmed. */
  function UsableUrl(raw: Option<string>): (r: Option<string>)
    ensures r.None? <==> raw.None? || Trim(raw.value) == ""
    ensures r.Some? ==> r.value == StripTrailingSlash(raw.value)
  {
    if raw.Some? && Trim(raw.value) != "" then Some(StripTrailingSlash(raw.value)) else None
  }

  /** `getWorkspaceUrl()`: `WORKSPACE_APP_URL ?? NEXT_PUBLIC_WORKSPACE_APP_URL`, then the usability test. */
  function GetWorkspaceUrl(primary: Option<string>, fallback: Option<string>): (r: Option<string>)
    ensures primary.Some? ==> r == UsableUrl(primary)
    ensures primary.None? ==> r == UsableUrl(fallback)
  {
    UsableUrl(if primary.Some? then primary else fallback)
  }

  /** `getSuperadminUrl()` over `NEXT_PUBLIC_SUPERADMIN_APP_URL`. */
  function GetSuperadminUrl(raw: Option<string>): (r: Option<string>)
    ensures r == UsableUrl(raw)
  {
    UsableUrl(raw)
  }

  /** An empty primary setting does not fall back: `??` only skips an unset value. */
  lemma EmptyPrimaryDoesNotFallBack(fallback: Option<string>)
    ensures GetWorkspaceUrl(Some(""), fallback) == None
  {
    assert TrimStart("") == "";
  }

  /** The result ends in `/` exactly when the setting ends in `//`. */
  lemma EndsInSlashIff(raw: string)
    requires Trim(raw) != ""
    ensures var r := UsableUrl(Some(raw)).value;
      (r != [] && r[|r| - 1] == '/') <==> |raw| >= 2 && raw[|raw| - 2..] == "//"
  {
    var r := UsableUrl(Some(raw)).value;
    if |raw| >= 2 && raw[|raw| - 1] == '/' {
      assert r == raw[..|raw| - 1];
      assert raw[|raw| - 2..] == [raw[|raw| - 2], raw[|raw| - 1]];
    }
  }

  /** A setting without a trailing `/` is used verbatim, surrounding whitespace included. */
  lemma NoSlashVerbatim(raw: string)
    requires Trim(raw) != "" && raw[|raw| - 1] != '/'
    ensures UsableUrl(Some(raw)) == Some(raw)
  {
  }

  /** `"x/ "` keeps its slash: the trailing space hides it from the replacement. */
  lemma SpaceHidesSlash()
    ensures UsableUrl(Some("x/ ")) == Some("x/ ")
  {
    var s := "x/ ";
    assert TrimStart(s) == s;
    assert !IsWhitespace(s[0]);
  }
}
