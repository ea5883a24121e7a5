/**
 * What the two route guards have in common: their outcomes, the shape of the
 * `if (isLoginPage) ...` branches, and how a response carries the session
 * cookies the identity provider wrote while the guard read the session.
 */
module RouteResponse {
  import opened Base
  import opened Cookies
  import opened Text

  const LOGIN_PATH: string := "/login"
  const HOME_PATH: string := "/"

  /** What a guard does with a request: let it through, or redirect to `path` on the request's own origin with an optional `?error=` reason. */
  datatype Outcome = PassThrough | RedirectTo(path: string, error: Option<string>)

  /** `if (isLoginPage) return response;` followed by a redirect to the login page. */
  function ToLogin(path: string, reason: Option<string>): Outcome {
    if path == LOGIN_PATH then PassThrough else RedirectTo(LOGIN_PATH, reason)
  }

  /** An authorised caller: the login page sends it home, everything else passes. */
  function Authorised(path: string): Outcome {
    if path == LOGIN_PATH then RedirectTo(HOME_PATH, None) else PassThrough
  }

  /** A guard's response: its outcome and the cookies it carries. */
  datatype GuardResponse = GuardResponse(outcome: Outcome, cookies: seq<Cookie>)

  /**
   * Building the response for `outcome`. When the provider was consulted its
   * `setAll` has written `providerCookies`, options included, onto the
   * pass-through `response`; a redirect is a fresh response that receives
   * them through `copyCookies`, which keeps names and values only.
   */
  method Respond(consulted: bool, outcome: Outcome, providerCookies: seq<Cookie>) returns (resp: GuardResponse)
    requires !consulted ==> outcome.PassThrough?
    ensures resp.outcome == outcome
    ensures outcome.PassThrough? ==> resp.cookies == (if consulted then PutAll([], providerCookies) else [])
    ensures outcome.RedirectTo? ==> resp.cookies == StripOptions(PutAll([], providerCookies))
  {
    var response := new CookieJar();
    if !consulted {
      return GuardResponse(PassThrough, response.entries);
    }
    SetAll(response, providerCookies);
    if outcome.PassThrough? {
      return GuardResponse(outcome, response.entries);
    }
    var redirect := new CookieJar();
    CopyCookies(response, redirect);
    PutAllUnique([], providerCookies);
    CopyIntoEmpty(response.entries);
    return GuardResponse(outcome, redirect.entries);
  }

  // Pieces of the two route matchers, both of the form `/((?!...).*)`.

  predicate IsLineTerminator(c: char) {
    c == '\n' || c == '\r' || c as int == 0x2028 || c as int == 0x2029
  }

  /** `favicon.ico` where the regex `.` matches any character but a line terminator. */
  predicate FaviconLike(rest: string) {
    |rest| >= 11 && rest[..7] == "favicon" && !IsLineTerminator(rest[7]) && rest[8..11] == "ico"
  }

  /** `.*\.ext$`: the extension at the very end, with no line break before it. */
  predicate EndsWithAsset(rest: string, ext: string) {
    EndsWith(rest, "." + ext) && forall i :: 0 <= i < |rest| - |ext| - 1 ==> !IsLineTerminator(rest[i])
  }

  /** `.*\.(?:svg|png|jpg|jpeg|gif|webp)$`. */
  predicate ImageAsset(rest: string) {
    EndsWithAsset(rest, "svg") || EndsWithAsset(rest, "png") || EndsWithAsset(rest, "jpg")
    || EndsWithAsset(rest, "jpeg") || EndsWithAsset(rest, "gif") || EndsWithAsset(rest, "webp")
  }

  /** The alternatives both matchers exclude: Next.js static files, the favicon and images. */
  predicate StaticAsset(rest: string) {
    StartsWith(rest, "_next/static") || StartsWith(rest, "_next/image") || FaviconLike(rest) || ImageAsset(rest)
  }

  /** `/` followed by a line of text, the shape `/(.*)` requires. */
  predicate SingleLinePath(path: string) {
    path != [] && path[0] == '/' && forall i :: 1 <= i < |path| ==> !IsLineTerminator(path[i])
  }

  lemma NoDotNoAsset(rest: string, ext: string)
    requires forall i :: 0 <= i < |rest| ==> rest[i] != '.'
    ensures !EndsWith(rest, "." + ext)
  {
    var suffix := "." + ext;
    assert suffix[0] == '.';
    if |suffix| <= |rest| {
      assert rest[|rest| - |suffix|..][0] != suffix[0];
    }
  }

  /** A remainder with no dot that does not begin with `_` or `f` is no static asset. */
  lemma PlainNotStatic(rest: string)
    requires rest != [] && rest[0] != '_' && rest[0] != 'f'
    requires forall i :: 0 <= i < |rest| ==> rest[i] != '.'
    ensures !StaticAsset(rest)
  {
    NoDotNoAsset(rest, "svg");
    NoDotNoAsset(rest, "png");
    NoDotNoAsset(rest, "jpg");
    NoDotNoAsset(rest, "jpeg");
    NoDotNoAsset(rest, "gif");
    NoDotNoAsset(rest, "webp");
  }
}
