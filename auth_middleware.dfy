/**
 * `authMiddleware(roles)` (presentation/middlewares/authMiddleware.ts): take the
 * second space-separated word of the Authorization header as a JSON Web Token,
 * verify it with the server secret, and let the request through only when the
 * token's role is one of `roles`. Signature checking and expiry belong to the
 * `verify` parameter (jsonwebtoken's `jwt.verify`).
 */
module AuthMiddleware {
  import opened Wrappers
  import opened Text
  import opened Errors

  const NoTokenMessage := "No token provided"
  const InvalidTokenMessage := "Invalid token"
  const ForbiddenMessage := "Access forbidden"
  const FallbackSecret := "Nothing"

  /** `process.env.JWT_SECRET || 'Nothing'`: an unset or empty variable falls back. */
  function Secret(env: Option<string>): (r: string)
    ensures r != ""
    ensures env.Some? && env.value != "" ==> r == env.value
    ensures env.None? || env.value == "" ==> r == FallbackSecret
  {
    if env.Some? && env.value != "" then env.value else FallbackSecret
  }

  /**
   * `req.headers.authorization?.split(' ')[1]`: undefined without a header or
   * without a space in it; otherwise the text between the first space and the next.
   */
  function Token(authorization: Option<string>): (r: Option<string>)
    ensures r.Some? <==> authorization.Some? && ' ' in authorization.value
    ensures r.Some? ==> ' ' !in r.value
  {
    if authorization.None? then None
    else
      var pieces := Split(authorization.value, ' ');
      if |pieces| < 2 then
        assert authorization.value == pieces[0];
        None
      else
        assert authorization.value == pieces[0] + " " + Join(pieces[1..], " ");
        assert authorization.value[|pieces[0]|] == ' ';
        Some(pieces[1])
  }

  /** What the token says about its bearer, once its signature is checked. */
  datatype AuthUser = AuthUser(userId: string, role: string)

  /** `next(error)` with the error, or `next()` with `req.user` set to the bearer. */
  datatype Verdict = Reject(error: Error) | Admit(user: AuthUser)

  /**
   * The decision the middleware takes: no (or an empty) token is 401, a token
   * `verify` refuses is 401, a verified token whose role is not allowed is 403.
   */
  function Decide(authorization: Option<string>, roles: seq<string>, secret: string,
                  verify: (string, string) -> Option<AuthUser>): (r: Verdict)
    ensures Token(authorization).None? || Token(authorization) == Some("") ==>
      r == Reject(AppError(NoTokenMessage, Unauthorized))
    ensures r.Admit? <==>
      && Token(authorization).Some? && Token(authorization).value != ""
      && verify(Token(authorization).value, secret).Some?
      && verify(Token(authorization).value, secret).value.role in roles
    ensures r.Admit? ==> r.user == verify(Token(authorization).value, secret).value
    ensures (&& Token(authorization).Some? && Token(authorization).value != ""
             && verify(Token(authorization).value, secret).None?) ==>
      r == Reject(AppError(InvalidTokenMessage, Unauthorized))
    ensures (&& Token(authorization).Some? && Token(authorization).value != ""
             && verify(Token(authorization).value, secret).Some?
             && verify(Token(authorization).value, secret).value.role !in roles) ==>
      r == Reject(AppError(ForbiddenMessage, Forbidden))
    ensures r.Reject? ==> r.error.AppError? && r.error.statusCode in {Unauthorized, Forbidden}
    ensures r.Reject? && r.error.statusCode == Forbidden <==>
      && Token(authorization).Some? && Token(authorization).value != ""
      && verify(Token(authorization).value, secret).Some?
      && verify(Token(authorization).value, secret).value.role !in roles
  {
    var token := Token(authorization);
    if token.None? || token.value == "" then Reject(AppError(NoTokenMessage, Unauthorized))
    else
      match verify(token.value, secret)
      case None => Reject(AppError(InvalidTokenMessage, Unauthorized))
      case Some(decoded) =>
        if decoded.role !in roles then Reject(AppError(ForbiddenMessage, Forbidden))
        else Admit(AuthUser(decoded.userId, decoded.role))
  }

  /** The token is the word after the first space, whatever precedes it and whatever follows. */
  lemma TokenIsSecondWord(scheme: string, token: string, rest: string)
    requires ' ' !in scheme && ' ' !in token
    ensures Token(Some(scheme + " " + token)) == Some(token)
    ensures Token(Some(scheme + " " + token + " " + rest)) == Some(token)
  {
    SplitAfterWord(scheme, ' ', token);
    SplitWord(token, ' ');
    assert scheme + " " + token + " " + rest == scheme + " " + (token + " " + rest);
    SplitAfterWord(scheme, ' ', token + " " + rest);
    SplitAfterWord(token, ' ', rest);
  }

  /** The scheme word is never looked at: `Basic <jwt>` passes like `Bearer <jwt>`. */
  lemma SchemeIsNotChecked(scheme: string, token: string, roles: seq<string>, secret: string,
                           verify: (string, string) -> Option<AuthUser>)
    requires ' ' !in scheme && ' ' !in token
    ensures Decide(Some(scheme + " " + token), roles, secret, verify)
         == Decide(Some("Bearer " + token), roles, secret, verify)
  {
    TokenIsSecondWord(scheme, token, "");
    TokenIsSecondWord("Bearer", token, "");
    assert "Bearer " + token == "Bearer" + " " + token;
  }

  /** A rejection reaches the client, through the error middleware, as 401 or 403 with its own message. */
  lemma RejectionResponse(authorization: Option<string>, roles: seq<string>, secret: string,
                          verify: (string, string) -> Option<AuthUser>)
    requires Decide(authorization, roles, secret, verify).Reject?
    ensures var e := Decide(authorization, roles, secret, verify).error;
      && Respond(e).status == e.statusCode
      && Respond(e).status in {Unauthorized, Forbidden}
      && Respond(e).body.message in {NoTokenMessage, InvalidTokenMessage, ForbiddenMessage}
  {
  }

  /** The incoming request: its Authorization header and the `user` the middleware may attach. */
  class Request {
    const authorization: Option<string>
    var user: Option<AuthUser>

    constructor (authorization: Option<string>)
      ensures this.authorization == authorization && user == None
    {
      this.authorization := authorization;
      user := None;
    }
  }

  /** The handler `authMiddleware(roles)` returns, closed over the roles and the secret. */
  class Guard {
    const roles: seq<string>
    const secret: string
    const verify: (string, string) -> Option<AuthUser>

    constructor (roles: seq<string>, env: Option<string>, verify: (string, string) -> Option<AuthUser>)
      ensures this.roles == roles && secret == Secret(env) && this.verify == verify
    {
      this.roles := roles;
      secret := Secret(env);
      this.verify := verify;
    }

    /** Calls `next` once: with the error, or with none after attaching the bearer to the request. */
    method Handle(req: Request) returns (next: Option<Error>)
      modifies req
      ensures match Decide(req.authorization, roles, secret, verify)
        case Reject(e) => next == Some(e) && req.user == old(req.user)
        case Admit(u) => next == None && req.user == Some(u)
    {
      var token := Token(req.authorization);
      if token.None? || token.value == "" {
        return Some(AppError(NoTokenMessage, Unauthorized));
      }
      var decoded := verify(token.value, secret);
      if decoded.None? {
        return Some(AppError(InvalidTokenMessage, Unauthorized));
      }
      if decoded.value.role !in roles {
        return Some(AppError(ForbiddenMessage, Forbidden));
      }
      req.user := Some(AuthUser(decoded.value.userId, decoded.value.role));
      next := None;
    }
  }
}
