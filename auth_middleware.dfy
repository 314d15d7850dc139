/**
 * `protect` (backend/src/middleware/authMiddleware.js): the bearer scheme of
 * section 2.1 of RFC 6750, with the scheme name matched case-sensitively,
 * followed by token verification and the mapping of the token's claims to
 * the request's user. Signature checking (`jwt.verify`) is a parameter.
 */
module AuthMiddleware {
  import opened Wrappers
  import opened EmailService

  /** The claims of a verified token; `None` is an absent claim. */
  datatype Claims = Claims(
    id: Option<string>,
    sub: Option<string>,
    email: Option<string>,
    role: Option<string>,
    userRole: Option<string>)

  /** `req.user` as `protect` sets it. */
  datatype Principal = Principal(id: Option<string>, email: Option<string>, role: Option<string>)

  /** Either the request is rejected with a status and message, or it proceeds with a user. */
  datatype Decision = Reject(status: int, message: string) | Proceed(user: Principal)

  const Scheme := "Bearer "

  /**
   * The token of the `Authorization` header: the text after exactly
   * `Bearer `, or `None` (`null`) when the header does not start with it.
   */
  function BearerToken(header: Option<string>): (t: Option<string>)
    ensures t.Some? <==> header.Some? && |Scheme| <= |header.value| && header.value[..|Scheme|] == Scheme
    ensures t.Some? ==> header.value == Scheme + t.value
  {
    var auth := OrElse(header, "");
    if |Scheme| <= |auth| && auth[..|Scheme|] == Scheme then
      assert auth == auth[..|Scheme|] + auth[|Scheme|..];
      Some(auth[|Scheme|..])
    else None
  }

  /** `a || b`, for possibly unset strings. */
  function FirstTruthy(a: Option<string>, b: Option<string>): (r: Option<string>)
    ensures Truthy(a) ==> r == a
    ensures !Truthy(a) ==> r == b
  {
    if Truthy(a) then a else b
  }

  /** The user built from verified claims. */
  function PrincipalOf(c: Claims): (p: Principal)
    ensures p.id == (if Truthy(c.id) then c.id else c.sub)
    ensures p.email.Some? <==> Truthy(c.email)
    ensures p.email.Some? ==> p.email == c.email
    ensures p.role.Some? <==> Truthy(c.role) || Truthy(c.userRole)
    ensures Truthy(c.role) ==> p.role == c.role
    ensures !Truthy(c.role) && Truthy(c.userRole) ==> p.role == c.userRole
    ensures p.role.Some? ==> p.role.value != ""
  {
    Principal(
      FirstTruthy(c.id, c.sub),
      FirstTruthy(c.email, None),
      FirstTruthy(c.role, FirstTruthy(c.userRole, None)))
  }

  /**
   * `protect`: no token (including `Bearer ` with nothing after it) is 401
   * "token missing"; a token `verify` rejects is 401 "Token invalid";
   * otherwise the request proceeds with the user of the token's claims.
   */
  function Protect(header: Option<string>, verify: string -> Option<Claims>): (d: Decision)
    ensures (BearerToken(header).None? || BearerToken(header) == Some(""))
            ==> d == Reject(401, "Not authorized, token missing")
    ensures Truthy(BearerToken(header)) && verify(BearerToken(header).value).None?
            ==> d == Reject(401, "Token invalid")
    ensures d.Proceed? <==> Truthy(BearerToken(header)) && verify(BearerToken(header).value).Some?
    ensures d.Proceed? ==> d.user == PrincipalOf(verify(BearerToken(header).value).value)
  {
    var token := BearerToken(header);
    if !Truthy(token) then Reject(401, "Not authorized, token missing")
    else
      match verify(token.value)
      case None => Reject(401, "Token invalid")
      case Some(claims) => Proceed(PrincipalOf(claims))
  }

  /** The scheme name is matched case-sensitively: `bearer t` carries no token. */
  lemma LowerCaseSchemeRejected(t: string, verify: string -> Option<Claims>)
    ensures Protect(Some("bearer " + t), verify) == Reject(401, "Not authorized, token missing")
  {
    assert ("bearer " + t)[0] == 'b';
  }

  /** A header that is only the scheme name carries an empty token, which counts as missing. */
  lemma SchemeOnlyRejected(verify: string -> Option<Claims>)
    ensures Protect(Some(Scheme), verify) == Reject(401, "Not authorized, token missing")
  {
    assert Scheme[..|Scheme|] == Scheme;
  }

  /** Claims with only an `id` give a user without role or email. */
  lemma IdOnlyClaimsHaveNoRole(id: string)
    ensures PrincipalOf(Claims(Some(id), None, None, None, None)).role == None
    ensures PrincipalOf(Claims(Some(id), None, None, None, None)).email == None
  {
  }
}
