/** The guest-route middleware: a visitor whose session cookie holds a token
    that has not yet expired is sent to the dashboard instead of the
    guest-only page. The token is decoded, never verified. */
module GuestMiddleware {
  import opened JsValues

  /** The token claims the middleware reads: `exp`, the expiration time of
      RFC 7519 section 4.1.4, a NumericDate in seconds since the epoch. */
  datatype Claims = Claims(exp: Option<int>)

  /** What the middleware tells the router. */
  datatype Navigation = Proceed | Redirect(path: string)

  const DashboardPath := "/dashboard"

  /** `exp > Date.now() / 1000`, with the clock `nowMs` in milliseconds. */
  predicate ExpiresAfter(exp: int, nowMs: int)
  {
    (exp as real) > (nowMs as real) / 1000.0
  }

  /** Comparing seconds with milliseconds divided by 1000 is comparing
      `exp * 1000` with the milliseconds. */
  lemma ExpiresAfterInMillis(exp: int, nowMs: int)
    ensures ExpiresAfter(exp, nowMs) <==> exp * 1000 > nowMs
  {
  }

  /** The redirect decision for the cookie value (absent when there is no
      cookie), a decoder that yields nothing when decoding throws, and the
      current time in milliseconds. */
  function GuestGuard(cookie: Option<string>, decode: string -> Option<Claims>, nowMs: int): (r: Navigation)
    ensures r == Proceed || r == Redirect(DashboardPath)
    ensures r.Redirect? <==>
              && cookie.Some? && cookie.value != ""
              && decode(cookie.value).Some?
              && decode(cookie.value).value.exp.Some?
              && decode(cookie.value).value.exp.value != 0
              && decode(cookie.value).value.exp.value * 1000 > nowMs
  {
    if cookie.Some? && TruthyString(cookie.value) then
      match decode(cookie.value)
      case None => Proceed
      case Some(claims) =>
        if TruthyNumber(claims.exp) && ExpiresAfter(claims.exp.value, nowMs) then Redirect(DashboardPath)
        else Proceed
    else Proceed
  }

  /** No cookie, an empty token, a token that fails to decode, and a token
      without a truthy `exp` all let the visitor through. */
  lemma NoSessionNoRedirect(cookie: Option<string>, decode: string -> Option<Claims>, nowMs: int)
    requires || cookie.None? || cookie == Some("")
             || (cookie.Some? && decode(cookie.value).None?)
             || (cookie.Some? && decode(cookie.value).Some? && !TruthyNumber(decode(cookie.value).value.exp))
    ensures GuestGuard(cookie, decode, nowMs) == Proceed
  {
  }

  /** The comparison is strict: a token that expires at this very second
      lets the visitor through. */
  lemma ExpiryIsStrict(token: string, decode: string -> Option<Claims>, exp: int)
    requires token != "" && exp != 0 && decode(token) == Some(Claims(Some(exp)))
    ensures GuestGuard(Some(token), decode, exp * 1000) == Proceed
    ensures GuestGuard(Some(token), decode, exp * 1000 - 1) == Redirect(DashboardPath)
  {
  }

  /** A session that redirects now also redirected at every earlier time,
      and one that no longer redirects never will again. */
  lemma RedirectIsMonotoneInTime(cookie: Option<string>, decode: string -> Option<Claims>, earlier: int, later: int)
    requires earlier <= later
    ensures GuestGuard(cookie, decode, later).Redirect? ==> GuestGuard(cookie, decode, earlier).Redirect?
    ensures GuestGuard(cookie, decode, earlier) == Proceed ==> GuestGuard(cookie, decode, later) == Proceed
  {
  }

  /** A token that expires ten seconds from now redirects to the dashboard. */
  lemma TenSecondsLeftRedirects(token: string, decode: string -> Option<Claims>, nowMs: int)
    requires token != "" && nowMs >= 0 && decode(token) == Some(Claims(Some(nowMs / 1000 + 10)))
    ensures GuestGuard(Some(token), decode, nowMs) == Redirect(DashboardPath)
  {
  }
}
