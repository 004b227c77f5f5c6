/**
 * The `authenticateToken` and `optionalAuth` middleware, which the three
 * route files define alike, and the `parseInt(x) || fallback` idiom they use
 * for limits. A token is sent as in section 2.1 of RFC 6750
 * ("Authorization: Bearer <token>"), but the scheme is matched
 * case-sensitively, with exactly one space after it.
 */
module Bearer {
  import opened Wrappers
  import opened Text

  /** The claims `jwt.sign` puts into a token at login. */
  datatype Claims = Claims(userId: int, email: string, name: Option<string>)

  /** `jwt.verify` with the server's secret: the claims of a valid, unexpired token, None when it throws. */
  type Verifier = string -> Option<Claims>

  const Prefix: string := "Bearer "

  const NoTokenMessage: string := "Token tidak ditemukan"
  const BadTokenMessage: string := "Token tidak valid"

  /** A header a token is read from: present and starting with "Bearer ". */
  predicate WellFormed(header: Option<string>) {
    header.Some? && StartsWith(header.value, Prefix)
  }

  /** `authHeader.split(' ')[1]`: what follows "Bearer " up to the next space. */
  function TokenOf(header: string): (token: string)
    requires StartsWith(header, Prefix)
    ensures ' ' !in token
    ensures var rest := header[|Prefix|..];
      |token| <= |rest| && token == rest[..|token|] && (|token| < |rest| ==> rest[|token|] == ' ')
  {
    var rest := header[7..];
    assert header == "Bearer" + [' '] + rest;
    SplitAfter("Bearer", ' ', rest);
    SplitFirst(rest, ' ');
    Split(header, ' ')[1]
  }

  /** A header holding one space-free token yields exactly that token. */
  lemma TokenOfSingleToken(token: string)
    requires ' ' !in token
    ensures StartsWith(Prefix + token, Prefix)
    ensures TokenOf(Prefix + token) == token
  {
    var header := Prefix + token;
    assert header[..|Prefix|] == Prefix;
    assert header[|Prefix|..] == token;
    var t := TokenOf(header);
    assert |t| == |token|;
    assert token[..|token|] == token;
  }

  /** The scheme is matched case-sensitively: "bearer ..." is not a well-formed header. */
  lemma LowerCaseSchemeRejected(rest: string)
    ensures !WellFormed(Some("bearer " + rest))
  {
    assert ("bearer " + rest)[0] == 'b';
  }

  /** What `authenticateToken` decides. */
  datatype Auth = NoToken | BadToken | Authorized(claims: Claims)

  /**
   * `authenticateToken`: a missing or malformed header is 401 "Token tidak
   * ditemukan", a token that does not verify is 401 "Token tidak valid",
   * otherwise the handler runs with the token's claims as `req.user`.
   */
  function Authenticate(header: Option<string>, verify: Verifier): (a: Auth)
    ensures a == NoToken <==> !WellFormed(header)
    ensures a == BadToken <==> WellFormed(header) && verify(TokenOf(header.value)).None?
    ensures a.Authorized? <==> WellFormed(header) && verify(TokenOf(header.value)).Some?
    ensures a.Authorized? ==> a.claims == verify(TokenOf(header.value)).value
  {
    if !WellFormed(header) then NoToken
    else
      match verify(TokenOf(header.value))
      case None => BadToken
      case Some(claims) => Authorized(claims)
  }

  /** The 401 message of a request the middleware turns away. */
  function DenialMessage(a: Auth): (message: string)
    requires !a.Authorized?
    ensures a == NoToken ==> message == NoTokenMessage
    ensures a == BadToken ==> message == BadTokenMessage
  {
    if a == NoToken then NoTokenMessage else BadTokenMessage
  }

  /**
   * `optionalAuth`: the request always goes on; `req.user` is set exactly
   * when `authenticateToken` would have let it through, and to the same claims.
   */
  function OptionalAuth(header: Option<string>, verify: Verifier): (user: Option<Claims>)
    ensures user.Some? <==> Authenticate(header, verify).Authorized?
    ensures user.Some? ==> user.value == Authenticate(header, verify).claims
  {
    if WellFormed(header) then verify(TokenOf(header.value)) else None
  }

  /** `parseInt(x) || fallback`, where `parsed` is None for NaN: NaN and 0 are falsy. */
  function IntOr(parsed: Option<int>, fallback: int): (n: int)
    ensures parsed.None? || parsed == Some(0) ==> n == fallback
    ensures parsed.Some? && parsed.value != 0 ==> n == parsed.value
    ensures fallback != 0 ==> n != 0
  {
    match parsed
    case None => fallback
    case Some(v) => if v == 0 then fallback else v
  }
}
