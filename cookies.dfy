/**
 * The options of the authentication cookie: whether it is marked secure,
 * its SameSite policy, its lifetime, and the options that clear it. The
 * environment variables are parameters; an unset one is "".
 */
module Cookies {
  import opened Common

  /** Three days, in milliseconds. */
  const AuthCookieMaxAge: nat := 3 * 24 * 60 * 60 * 1000

  /** Whether `s` starts with `https://`, in any letter case. */
  predicate IsHttpsUrl(s: string) {
    StartsWith(ToLower(s), "https://")
  }

  /**
   * `inferCookieSecurity`: a non-empty `COOKIE_SECURE` decides alone, and
   * only the exact text "true" means secure; otherwise the server's URL
   * (`SERVER_URL`, else `SERVER_PUBLIC_URL`) decides by its scheme.
   */
  function InferCookieSecurity(cookieSecure: string, serverUrl: string, serverPublicUrl: string): (r: bool)
    ensures cookieSecure != "" ==> (r <==> cookieSecure == "true")
    ensures cookieSecure == "" && serverUrl != "" ==> (r <==> IsHttpsUrl(serverUrl))
    ensures cookieSecure == "" && serverUrl == "" ==> (r <==> IsHttpsUrl(serverPublicUrl))
  {
    if |cookieSecure| > 0 then cookieSecure == "true"
    else IsHttpsUrl(OrElse(serverUrl, serverPublicUrl))
  }

  datatype CookieOptions = CookieOptions(maxAge: nat, sameSite: string, secure: bool, httpOnly: bool)

  /** `authCookieOptions`: three days, HTTP only, SameSite None exactly when secure, Lax otherwise. */
  function AuthCookieOptions(secure: bool): (r: CookieOptions)
    ensures r.maxAge == AuthCookieMaxAge && r.httpOnly && r.secure == secure
    ensures r.sameSite == "None" <==> secure
    ensures r.sameSite == "None" || r.sameSite == "Lax"
  {
    CookieOptions(AuthCookieMaxAge, if secure then "None" else "Lax", secure, true)
  }

  /** `clearAuthCookieOptions`: the same options with a lifetime of one millisecond. */
  function ClearAuthCookieOptions(secure: bool): (r: CookieOptions)
    ensures r.maxAge == 1
    ensures r.sameSite == AuthCookieOptions(secure).sameSite && r.secure == AuthCookieOptions(secure).secure
    ensures r.httpOnly == AuthCookieOptions(secure).httpOnly
  {
    AuthCookieOptions(secure).(maxAge := 1)
  }

  /** An https server address, in any letter case, makes the cookie secure unless `COOKIE_SECURE` says otherwise. */
  lemma HttpsServerMeansSecure(rest: string, scheme: string, serverPublicUrl: string)
    requires ToLower(scheme) == "https://"
    ensures InferCookieSecurity("", scheme + rest, serverPublicUrl)
  {
    ToLowerAppend(scheme, rest);
    assert (ToLower(scheme) + ToLower(rest))[..8] == "https://";
  }
}
