/**
 * The two Express middlewares of backend/index.js: `verifyToken` and
 * `verifyAdmin`. Each either calls `next` (the route continues) or answers
 * with an error status and stops the route.
 */
module Guards {
  import opened Wrappers
  import opened Schema
  import opened Jwt

  const Unauthorized: nat := 401
  const Forbidden: nat := 403
  const ServerError: nat := 500

  /** A middleware's outcome: `next()` with the request's claims, or a response that ends the route. */
  datatype Gate = Next(claims: Claims) | Stop(status: nat)

  /**
   * `verifyToken`: an absent (or empty) `token` cookie and a token whose
   * signature does not check are both answered with 401; otherwise the
   * decoded claims are attached to the request.
   */
  function VerifyToken(cookie: Option<Token>, secret: string): (g: Gate)
    ensures g.Next? <==> cookie.Some? && Verify(cookie.value, secret).Some?
    ensures g.Next? ==> cookie == Some(Sign(g.claims, secret))
    ensures g.Stop? ==> g.status == Unauthorized
  {
    match cookie
    case None => Stop(Unauthorized)
    case Some(t) =>
      match Verify(t, secret)
      case None => Stop(Unauthorized)
      case Some(c) => Next(c)
  }

  /**
   * `verifyAdmin`: `users.findById(req.user.id)` must find a user whose
   * role is `'admin'`, else 403; `lookupFails` stands for the lookup
   * throwing, which is answered with 500.
   */
  function VerifyAdmin(users: map<Id, User>, claims: Claims, lookupFails: bool): (g: Gate)
    ensures g.Next? <==> !lookupFails && claims.id in users && users[claims.id].role == AdminRole
    ensures g.Next? ==> g.claims == claims
    ensures g.Stop? ==> g.status == if lookupFails then ServerError else Forbidden
  {
    if lookupFails then Stop(ServerError)
    else if claims.id in users && users[claims.id].role == AdminRole then Next(claims)
    else Stop(Forbidden)
  }

  /**
   * `[verifyToken, verifyAdmin]`, the chain on the user-deletion route: the
   * route runs only for a token this server signed for an existing admin,
   * and an unauthenticated request is refused before any role lookup.
   */
  function AdminChain(cookie: Option<Token>, secret: string, users: map<Id, User>,
                      lookupFails: bool): (g: Gate)
    ensures g.Next? <==>
      exists c :: cookie == Some(Sign(c, secret)) && !lookupFails &&
                  c.id in users && users[c.id].role == AdminRole
    ensures g.Next? ==> cookie == Some(Sign(g.claims, secret))
    ensures VerifyToken(cookie, secret).Stop? ==> g == Stop(Unauthorized)
  {
    match VerifyToken(cookie, secret)
    case Stop(s) => Stop(s)
    case Next(c) => VerifyAdmin(users, c, lookupFails)
  }
}
