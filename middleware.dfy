// The authentication middleware of server/middleware.ts: the token is what
// follows the exact, case-sensitive prefix "Bearer " of the Authorization
// header (narrower than section 2.1 of RFC 6750, whose scheme name is
// case-insensitive); token verification is a parameter.
module Middleware {
  import opened Wrappers
  import opened JsText

  /** What a verified access token carries. */
  datatype TokenPayload = TokenPayload(userId: string, email: string)

  datatype Decision =
    | Reject(status: int, error: string)
    | Proceed(userId: string)

  const Prefix: string := "Bearer "

  /** The token of a header that starts with exactly "Bearer ": the header
      without its first seven characters. */
  function BearerToken(header: Option<string>): (r: Option<string>)
    ensures r.Some? <==> header.Some? && StartsWith(header.value, Prefix)
    ensures r.Some? ==> header.value == Prefix + r.value
  {
    if header.Some? && header.value != "" && StartsWith(header.value, Prefix)
    then Some(header.value[7..])
    else None
  }

  /** Every token comes back out of its own header. */
  lemma BearerRoundTrip(token: string)
    ensures BearerToken(Some(Prefix + token)) == Some(token)
  {
    assert (Prefix + token)[..|Prefix|] == Prefix;
    assert (Prefix + token)[7..] == token;
  }

  /** The scheme name is matched case-sensitively. */
  lemma LowerCaseSchemeRejected(token: string)
    ensures BearerToken(Some("bearer " + token)) == None
  {
    assert ("bearer " + token)[0] == 'b';
  }

  /** The decision `authMiddleware` takes for a header, given the token
      verifier. */
  function Authorize(header: Option<string>, verify: string -> Option<TokenPayload>): (d: Decision)
    ensures d.Reject? ==> d.status == 401
    ensures BearerToken(header).None? ==> d == Reject(401, "No token provided")
    ensures BearerToken(header).Some? && verify(BearerToken(header).value).None? ==>
              d == Reject(401, "Invalid or expired token")
    ensures d.Proceed? <==> BearerToken(header).Some? && verify(BearerToken(header).value).Some?
    ensures d.Proceed? ==> d.userId == verify(BearerToken(header).value).value.userId
  {
    match BearerToken(header)
    case None => Reject(401, "No token provided")
    case Some(token) =>
      match verify(token)
      case None => Reject(401, "Invalid or expired token")
      case Some(payload) => Proceed(payload.userId)
  }

  /** An incoming request as the middleware sees and changes it. */
  class AuthRequest {
    const authorization: Option<string>
    var userId: Option<string>
    var response: Option<(int, string)>
    var nextCalls: nat

    constructor (authorization: Option<string>)
      ensures this.authorization == authorization
      ensures userId == None && response == None && nextCalls == 0
    {
      this.authorization := authorization;
      userId := None;
      response := None;
      nextCalls := 0;
    }
  }

  /** `authMiddleware`: answers 401 without calling `next`, or records the
      user id and calls `next` once. */
  method AuthMiddleware(req: AuthRequest, verify: string -> Option<TokenPayload>)
    modifies req
    ensures var d := Authorize(req.authorization, verify);
      match d
      case Reject(status, error) =>
        && req.response == Some((status, error))
        && req.nextCalls == old(req.nextCalls)
        && req.userId == old(req.userId)
      case Proceed(uid) =>
        && req.userId == Some(uid)
        && req.nextCalls == old(req.nextCalls) + 1
        && req.response == old(req.response)
  {
    var header := req.authorization;
    if header.None? || header.value == "" || !StartsWith(header.value, Prefix) {
      req.response := Some((401, "No token provided"));
      return;
    }
    var token := header.value[7..];
    var payload := verify(token);
    if payload.None? {
      req.response := Some((401, "Invalid or expired token"));
      return;
    }
    req.userId := Some(payload.value.userId);
    req.nextCalls := req.nextCalls + 1;
  }
}
