/**
 * The authorization middleware: `authenticate` reads the bearer token from the
 * `Authorization` header, has it verified, and on success attaches the decoded identity
 * to the request and calls `next`; `authorizeAdmin` lets only the ADMIN role through.
 */
module AuthGate {
  import opened Wrappers
  import opened Text

  /** The identity carried by a session token. */
  datatype AuthPayload = AuthPayload(userId: string, email: string, role: string)

  /**
   * `jwt.sign` and `jwt.verify` with the configured secret and lifetime. `verify` yields
   * `None` where the library throws (bad signature, expired, malformed or empty token);
   * the current time is part of the library value.
   */
  datatype Jwt = Jwt(sign: AuthPayload -> string, verify: string -> Option<AuthPayload>)

  const BearerPrefix: string := "Bearer "
  const AdminRole: string := "ADMIN"
  const MsgNoToken: string := "Access denied. No token provided."
  const MsgBadToken: string := "Invalid or expired token."
  const MsgNotAdmin: string := "Access denied. Admin privileges required."

  /** A reply the middleware sends itself instead of calling `next`. */
  datatype Rejection = Rejection(status: nat, error: string)

  /** What a middleware does: call `next` with this identity, or reply with an error. */
  datatype GateOutcome = Next(user: AuthPayload) | Reject(rejection: Rejection)

  /** A header beginning with "Bearer " splits into "Bearer" and the pieces of the rest. */
  lemma PrefixedSplit(h: string)
    requires StartsWith(h, BearerPrefix)
    ensures Split(h, ' ') == ["Bearer"] + Split(h[7..], ' ')
  {
    assert h == "Bearer" + [' '] + h[7..];
    SplitAfterPrefix("Bearer", ' ', h[7..]);
  }

  /** `authHeader.split(' ')[1]` after the `startsWith('Bearer ')` test. */
  function BearerToken(header: Option<string>): Option<string> {
    match header
    case None => None
    case Some(h) =>
      if StartsWith(h, BearerPrefix) then PrefixedSplit(h); Some(Split(h, ' ')[1]) else None
  }

  /** The token is the text after "Bearer " up to the next space (or the end). */
  lemma BearerTokenShape(h: string)
    requires StartsWith(h, BearerPrefix)
    ensures BearerToken(Some(h)).Some?
    ensures var t := BearerToken(Some(h)).value;
      && 7 + |t| <= |h| && t == h[7..7 + |t|]
      && ' ' !in t
      && (7 + |t| == |h| || h[7 + |t|] == ' ')
  {
    PrefixedSplit(h);
    SplitFirst(h[7..], ' ');
  }

  /** With two spaces after "Bearer" the token is the empty string. */
  lemma DoubleSpaceGivesEmptyToken()
    ensures BearerToken(Some("Bearer  x")) == Some("")
  {
    BearerTokenShape("Bearer  x");
  }

  /** The prefix test is case-sensitive. */
  lemma LowerCaseSchemeRejected()
    ensures BearerToken(Some("bearer abc")) == None
  {
    assert "bearer abc"[..7] != BearerPrefix by {
      assert "bearer abc"[0] != BearerPrefix[0];
    }
  }

  /** `authenticate`'s decision for a request with this `Authorization` header. */
  function AuthenticateOutcome(header: Option<string>, jwt: Jwt): GateOutcome {
    match BearerToken(header)
    case None => Reject(Rejection(401, MsgNoToken))
    case Some(token) =>
      match jwt.verify(token)
      case None => Reject(Rejection(401, MsgBadToken))
      case Some(p) => Next(p)
  }

  /**
   * `next` is called with identity `p` exactly when the header carries the bearer prefix
   * and its token verifies to `p`; a missing header or a wrong scheme is "no token",
   * a token that does not verify is "invalid or expired"; both are 401.
   */
  lemma AuthenticateSpec(header: Option<string>, jwt: Jwt)
    ensures AuthenticateOutcome(header, jwt).Next?
        <==> header.Some? && StartsWith(header.value, BearerPrefix) && jwt.verify(BearerToken(header).value).Some?
    ensures AuthenticateOutcome(header, jwt).Next? ==>
        AuthenticateOutcome(header, jwt).user == jwt.verify(BearerToken(header).value).value
    ensures (header.None? || !StartsWith(header.value, BearerPrefix)) ==>
        AuthenticateOutcome(header, jwt) == Reject(Rejection(401, MsgNoToken))
    ensures (header.Some? && StartsWith(header.value, BearerPrefix) && jwt.verify(BearerToken(header).value).None?) ==>
        AuthenticateOutcome(header, jwt) == Reject(Rejection(401, MsgBadToken))
  {
  }

  /** A token the library signed and still accepts lets its own payload through. */
  lemma SignedTokenAccepted(jwt: Jwt, p: AuthPayload)
    requires ' ' !in jwt.sign(p)
    requires jwt.verify(jwt.sign(p)) == Some(p)
    ensures AuthenticateOutcome(Some(BearerPrefix + jwt.sign(p)), jwt) == Next(p)
  {
    var t := jwt.sign(p);
    var h := BearerPrefix + t;
    assert h[..7] == BearerPrefix && h[7..] == t;
    PrefixedSplit(h);
    SplitWithoutSeparator(t, ' ');
  }

  /** `authorizeAdmin`: `next` iff an identity is attached and its role is exactly "ADMIN". */
  function AdminAllowed(user: Option<AuthPayload>): (passes: bool) {
    user.Some? && user.value.role == AdminRole
  }

  lemma AuthorizeAdminSpec(user: Option<AuthPayload>)
    ensures !AdminAllowed(user) <==> user.None? || user.value.role != "ADMIN"
    ensures user == Some(AuthPayload("u", "e", "admin")) ==> !AdminAllowed(user)
  {
  }

  /**
   * One request as the middleware sees it: the header it came with, the identity
   * attached so far, how often `next` was called and the reply sent, if any.
   */
  class AuthRequest {
    const authorization: Option<string>
    var user: Option<AuthPayload>
    var nextCalls: nat
    var reply: Option<Rejection>

    constructor (authorization: Option<string>)
      ensures this.authorization == authorization
      ensures user == None && nextCalls == 0 && reply == None
    {
      this.authorization := authorization;
      user := None;
      nextCalls := 0;
      reply := None;
    }

    /** `authenticate(req, res, next)`. */
    method Authenticate(jwt: Jwt)
      modifies this
      ensures match AuthenticateOutcome(authorization, jwt)
        case Next(p) => user == Some(p) && nextCalls == old(nextCalls) + 1 && reply == old(reply)
        case Reject(r) => user == old(user) && nextCalls == old(nextCalls) && reply == Some(r)
    {
      var header := authorization;
      if header.None? || !StartsWith(header.value, BearerPrefix) {
        reply := Some(Rejection(401, MsgNoToken));
        return;
      }
      PrefixedSplit(header.value);
      var token := Split(header.value, ' ')[1];
      var decoded := jwt.verify(token);
      if decoded.Some? {
        user := decoded;
        nextCalls := nextCalls + 1;
      } else {
        reply := Some(Rejection(401, MsgBadToken));
      }
    }

    /** `authorizeAdmin(req, res, next)`. */
    method AuthorizeAdmin()
      modifies this
      ensures user == old(user)
      ensures AdminAllowed(user) ==> nextCalls == old(nextCalls) + 1 && reply == old(reply)
      ensures !AdminAllowed(user) ==>
        nextCalls == old(nextCalls) && reply == Some(Rejection(403, MsgNotAdmin))
    {
      if user.None? || user.value.role != AdminRole {
        reply := Some(Rejection(403, MsgNotAdmin));
        return;
      }
      nextCalls := nextCalls + 1;
    }
  }
}
