/**
 * The admin route guard of src/middleware.ts.
 *
 * The framework hands the guard a request path; the guard asks the
 * authentication provider for the current session. Here the session lookup is
 * an input (`hasSession`), and the guard is a total decision from
 * (path, hasSession) to one of three outcomes: let the request through,
 * redirect to the login page `/admin`, or redirect to `/admin/dashboard`.
 */
module Middleware {

  /**
   * `Next` is the response `res` (a `NextResponse.next()`) that the guard handed
   * to the session client, which may carry refreshed session cookies; a
   * `Redirect` is a new `NextResponse.redirect(new URL(target, request.url))`
   * without them. Cookies are not modelled.
   */
  datatype Outcome = Next | Redirect(target: string)

  /** The protected prefix, which is also the login page. */
  const AdminPath: string := "/admin"
  /** Where a signed-in user who opens the login page is sent. */
  const DashboardPath: string := "/admin/dashboard"

  /** `String.prototype.startsWith` at position 0. */
  predicate StartsWith(s: string, prefix: string) {
    prefix <= s
  }

  /** The admin area: every path the guard inspects at all. */
  predicate Protected(path: string) {
    StartsWith(path, AdminPath)
  }

  /**
   * The access policy the guard implements, stated independently of the
   * branch structure: outside the admin area everything is allowed; the login
   * page is for visitors without a session; every other admin page needs one.
   */
  predicate Allowed(path: string, hasSession: bool) {
    || !Protected(path)
    || (path == AdminPath && !hasSession)
    || (path != AdminPath && hasSession)
  }

  /**
   * The guard. The inner `else if` re-tests the negation of the `if` before
   * it, so it always holds when reached; its missing `else` falls through to
   * `Next` like every other non-redirecting branch.
   */
  function Decide(path: string, hasSession: bool): (o: Outcome)
    // Paths outside the admin area are untouched, whatever the session.
    ensures !Protected(path) ==> o == Next
    // The request passes exactly when the policy allows it.
    ensures o == Next <==> Allowed(path, hasSession)
    // Admin pages other than the login page need a session.
    ensures o == Redirect(AdminPath) <==> Protected(path) && path != AdminPath && !hasSession
    // A signed-in user on the login page goes to the dashboard.
    ensures o == Redirect(DashboardPath) <==> path == AdminPath && hasSession
    // Only those two targets occur, and never the request's own path.
    ensures o.Redirect? ==> o.target in {AdminPath, DashboardPath} && o.target != path
  {
    if StartsWith(path, AdminPath) then
      if path != AdminPath then
        if !hasSession then Redirect(AdminPath) else Next
      else if path == AdminPath then
        if hasSession then Redirect(DashboardPath) else Next
      else
        Next
    else
      Next
  }

  /**
   * Following a redirect with the same session settles: the target of any
   * redirect is let through, so the guard never sends a browser round in a
   * loop.
   */
  lemma RedirectSettles(path: string, hasSession: bool)
    requires Decide(path, hasSession).Redirect?
    ensures Decide(Decide(path, hasSession).target, hasSession) == Next
  {
  }

  /**
   * The protection test is a plain string prefix, not a path-segment test:
   * `/administrator` counts as an admin page and, without a session, is sent
   * to the login page.
   */
  lemma PrefixNotSegment()
    ensures Protected("/administrator")
    ensures Decide("/administrator", false) == Redirect(AdminPath)
    ensures !Protected("/Admin")
    // Every path that extends `/admin` by any text at all is protected.
    ensures forall rest: string :: Protected(AdminPath + rest)
  {
    assert "/administrator"[..|AdminPath|] == AdminPath;
    assert "/Admin"[1] != AdminPath[1];
  }
}
