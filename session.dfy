/** Session cookies: the claim sets signup and signin sign for a user, and the
    blank, already expired cookies logout sends back. Signing itself is an
    outside capability; a signed token is represented by the claims it signs. */
module Session {

  /** The process-wide settings the handlers read: `defaultJWTIssuer`,
      `DefaultAccessJWTExpiry` and `DefaultRefreshJWTExpiry`, in seconds. */
  datatype SessionConfig = SessionConfig(issuer: string, accessTTL: int, refreshTTL: int)

  /** `AuthClaims`: the user id and the standard claims the handlers fill in. */
  datatype Claims = Claims(userId: string, subject: string, expiresAt: int, issuer: string, issuedAt: int)

  /** A cookie's value: a token signed over some claims, or the empty string. */
  datatype CookieValue = Jwt(claims: Claims) | Blank

  /** `http.Cookie` with the attributes the handlers set; an unset Path is "". */
  datatype Cookie = Cookie(name: string, value: CookieValue, expires: int, path: string)

  const AccessTokenCookie := "access_token"
  const RefreshTokenCookie := "refresh_token"
  const AccessSubject := "access"
  const RefreshSubject := "refresh"

  /** The `access_token` cookie issued at `now` for `userId`. */
  function AccessCookie(cfg: SessionConfig, userId: string, now: int): Cookie {
    var expiresAt := now + cfg.accessTTL;
    Cookie(AccessTokenCookie, Jwt(Claims(userId, AccessSubject, expiresAt, cfg.issuer, now)), expiresAt, "/")
  }

  /** The `refresh_token` cookie issued at `now` for `userId`. */
  function RefreshCookie(cfg: SessionConfig, userId: string, now: int): Cookie {
    var expiresAt := now + cfg.refreshTTL;
    Cookie(RefreshTokenCookie, Jwt(Claims(userId, RefreshSubject, expiresAt, cfg.issuer, now)), expiresAt, "/")
  }

  /** The two cookies logout sets: empty, with no Path, expiring one TTL before `now`. */
  function LogoutCookies(cfg: SessionConfig, now: int): seq<Cookie> {
    [Cookie(AccessTokenCookie, Blank, now - cfg.accessTTL, ""),
     Cookie(RefreshTokenCookie, Blank, now - cfg.refreshTTL, "")]
  }

  /** A session cookie for `userId`: named `name`, valid for `ttl` seconds from `now`,
      and signed over claims that expire exactly when the cookie does. */
  ghost predicate IssuedFor(c: Cookie, cfg: SessionConfig, name: string, subject: string, ttl: int,
                            userId: string, now: int)
  {
    && c.name == name
    && c.value.Jwt?
    && c.value.claims.userId == userId
    && c.value.claims.subject == subject
    && c.value.claims.issuer == cfg.issuer
    && c.value.claims.issuedAt == now
    && c.value.claims.expiresAt == now + ttl == c.expires
    && c.path == "/"
  }

  /** The access and refresh cookies carry claims for the user they were issued
      to, with subject "access" and "refresh", the configured issuer, and an
      expiry one access TTL, respectively one refresh TTL, after `now`; with
      positive TTLs both lie in the future. */
  lemma IssuedCookiesCarryClaims(cfg: SessionConfig, userId: string, now: int)
    ensures IssuedFor(AccessCookie(cfg, userId, now), cfg, "access_token", "access", cfg.accessTTL, userId, now)
    ensures IssuedFor(RefreshCookie(cfg, userId, now), cfg, "refresh_token", "refresh", cfg.refreshTTL, userId, now)
    ensures cfg.accessTTL > 0 ==> AccessCookie(cfg, userId, now).expires > now
    ensures cfg.refreshTTL > 0 ==> RefreshCookie(cfg, userId, now).expires > now
  {
  }

  /** The two blank, expired cookies with Path "/", the path the session
      cookies were set with: the logout that clears the sessions. */
  function IntendedLogoutCookies(cfg: SessionConfig, now: int): seq<Cookie> {
    [Cookie(AccessTokenCookie, Blank, now - cfg.accessTTL, "/"),
     Cookie(RefreshTokenCookie, Blank, now - cfg.refreshTTL, "/")]
  }

  // ------------------------------------------------ how a user agent stores cookies

  /** The route logout is registered on. */
  const LogoutRoute := "/api/auth/logout"

  /** The path up to, but not including, its right-most "/" (all of it when it has none). */
  function UpToLastSlash(p: string): string {
    if p == [] then []
    else if p[|p| - 1] == '/' then p[..|p| - 1]
    else UpToLastSlash(p[..|p| - 1])
  }

  /** The default-path of a request path, section 5.1.4 of RFC 6265. For a path
      that starts with "/", having no more than one "/" is the same as its
      right-most "/" being the first character. */
  function DefaultPath(requestPath: string): string {
    if requestPath == [] || requestPath[0] != '/' then "/"
    else if UpToLastSlash(requestPath) == [] then "/"
    else UpToLastSlash(requestPath)
  }

  /** The path a user agent stores cookie `c` under when `c` comes in the
      answer to a request for `requestPath`, section 5.2.4 of RFC 6265: the
      Path attribute when it starts with "/", the default-path otherwise.
      An `http.Cookie` whose Path is "" is sent with no Path attribute. */
  function StoredPath(c: Cookie, requestPath: string): string {
    if c.path != [] && c.path[0] == '/' then c.path else DefaultPath(requestPath)
  }

  /** Cookie `c`, set in answer to `requestPath`, replaces the cookie
      `stored`, set in answer to `storedRequestPath`, exactly when the two have
      the same name and are stored under the same path (section 5.3, step 11 of
      RFC 6265; every cookie here is host-only and set by the same host). */
  predicate Replaces(c: Cookie, requestPath: string, stored: Cookie, storedRequestPath: string) {
    c.name == stored.name && StoredPath(c, requestPath) == StoredPath(stored, storedRequestPath)
  }

  /** A user agent stores the logout cookies under "/api/auth", the
      default-path of the logout route, because they carry no Path. */
  lemma LogoutCookiesStoredUnderRouteDirectory(cfg: SessionConfig, now: int)
    ensures forall c :: c in LogoutCookies(cfg, now) ==> StoredPath(c, LogoutRoute) == "/api/auth"
  {
    assert UpToLastSlash("/api/auth/logout") == "/api/auth" by {
      assert "/api/auth/logout"[..|"/api/auth/logout"| - 1] == "/api/auth/logou";
      assert "/api/auth/logou"[..|"/api/auth/logou"| - 1] == "/api/auth/logo";
      assert "/api/auth/logo"[..|"/api/auth/logo"| - 1] == "/api/auth/log";
      assert "/api/auth/log"[..|"/api/auth/log"| - 1] == "/api/auth/lo";
      assert "/api/auth/lo"[..|"/api/auth/lo"| - 1] == "/api/auth/l";
      assert "/api/auth/l"[..|"/api/auth/l"| - 1] == "/api/auth/";
      assert "/api/auth/"[..|"/api/auth/"| - 1] == "/api/auth";
    }
  }

  /** Logout replaces both session cookies by blank ones that carry no claims
      and, for positive TTLs, have already expired. */
  lemma LogoutCookiesAreExpired(cfg: SessionConfig, now: int)
    ensures |LogoutCookies(cfg, now)| == 2
    ensures LogoutCookies(cfg, now)[0].name == "access_token" && LogoutCookies(cfg, now)[1].name == "refresh_token"
    ensures forall c :: c in LogoutCookies(cfg, now) ==> c.value == Blank
    ensures cfg.accessTTL > 0 ==> LogoutCookies(cfg, now)[0].expires < now
    ensures cfg.refreshTTL > 0 ==> LogoutCookies(cfg, now)[1].expires < now
  {
  }
}
