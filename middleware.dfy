/** The edge middleware's route gate: platform pages need a session token carrying a
    platform role; admin and driver pages need the session cookie to be present. */
module Middleware {

  import opened Common

  /** The decoded session token; `role` is absent when the token carries none. */
  datatype Token = Token(role: Option<string>)

  datatype Decision =
    | Next                          // let the request through
    | RedirectToLogin(from: string) // redirect to /auth/login?from=<pathname>
    | Forbidden                     // 403 "Forbidden: Platform role required"

  const LOGIN_PATH := "/auth/login"
  const PROTECTED_PATHS: seq<string> := ["/admin", "/driver"]

  predicate IsPlatformRoleName(role: Option<string>) {
    role.Some? && role.value != "" && (role.value == "PLATFORM_OWNER" || role.value == "PLATFORM_ADMIN")
  }

  predicate IsProtectedPath(pathname: string) {
    exists i :: 0 <= i < |PROTECTED_PATHS| && StartsWith(pathname, PROTECTED_PATHS[i])
  }

  /** The protected prefixes are `/admin` and `/driver`, matched with `startsWith`. */
  lemma ProtectedPathsAreAdminAndDriver(pathname: string)
    ensures IsProtectedPath(pathname) <==> StartsWith(pathname, "/admin") || StartsWith(pathname, "/driver")
  {
    if StartsWith(pathname, "/admin") {
      assert StartsWith(pathname, PROTECTED_PATHS[0]);
    }
    if StartsWith(pathname, "/driver") {
      assert StartsWith(pathname, PROTECTED_PATHS[1]);
    }
  }

  /** The gate decision for a request path. `token` is only read for platform paths and
      `hasSessionCookie` only for the other protected paths. */
  function Gate(pathname: string, token: Option<Token>, hasSessionCookie: bool): (d: Decision)
    ensures d.RedirectToLogin? ==> d.from == pathname
    ensures StartsWith(pathname, "/platform") ==>
      d == (if token.None? then RedirectToLogin(pathname)
            else if IsPlatformRoleName(token.value.role) then Next
            else Forbidden)
    ensures !StartsWith(pathname, "/platform") ==>
      (d == RedirectToLogin(pathname) <==> IsProtectedPath(pathname) && !hasSessionCookie)
    ensures !StartsWith(pathname, "/platform") ==> d != Forbidden
  {
    if StartsWith(pathname, "/platform") then
      if token.None? then RedirectToLogin(pathname)
      else if token.value.role.None? || token.value.role.value == ""
           || (token.value.role.value != "PLATFORM_OWNER" && token.value.role.value != "PLATFORM_ADMIN")
      then Forbidden
      else Next
    else if IsProtectedPath(pathname) && !hasSessionCookie then RedirectToLogin(pathname)
    else Next
  }

  /** A platform path with a platform role passes whatever the cookie says. */
  lemma PlatformIgnoresCookie(pathname: string, role: string, cookie: bool)
    requires StartsWith(pathname, "/platform")
    requires role == "PLATFORM_OWNER" || role == "PLATFORM_ADMIN"
    ensures Gate(pathname, Some(Token(Some(role))), cookie) == Next
  {
  }

  /** A platform token without a role, or with any other role, is refused with 403. */
  lemma PlatformNeedsPlatformRole(pathname: string, role: Option<string>, cookie: bool)
    requires StartsWith(pathname, "/platform")
    requires role.Some? ==> role.value != "PLATFORM_OWNER" && role.value != "PLATFORM_ADMIN"
    ensures Gate(pathname, Some(Token(role)), cookie) == Forbidden
  {
  }

  /** Prefix matching is plain `startsWith`: "/administrator" is protected like "/admin". */
  lemma AdministratorIsProtected()
    ensures Gate("/administrator", None, false) == RedirectToLogin("/administrator")
    ensures Gate("/administrator", None, true) == Next
  {
    assert StartsWith("/administrator", PROTECTED_PATHS[0]);
    assert "/administrator"[1] != "/platform"[1];
  }

  /** A path outside every prefix passes whatever the token and cookie. */
  lemma UnprotectedPathPasses(pathname: string, token: Option<Token>, cookie: bool)
    requires !StartsWith(pathname, "/platform") && !IsProtectedPath(pathname)
    ensures Gate(pathname, token, cookie) == Next
  {
  }
}
