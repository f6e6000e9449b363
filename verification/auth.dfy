/**
  The authentication middleware: a bearer token (section 2.1 of RFC 6750)
  taken from the Authorization header and checked by the token verifier,
  which is a parameter here (signature and expiry checks are not modelled).
*/
module Auth {
  import opened Wrappers
  import opened Text

  /** What a valid token carries. */
  datatype Payload = Payload(userId: string, email: string)

  const Scheme := "Bearer "
  const TokenRequired := "Authorization token required"
  const InvalidToken := "Invalid or expired token"

  /** A rejected request ends with a status and a message; an admitted one reaches the handler once. */
  datatype Outcome = Reject(status: int, message: string) | Admit(user: Payload)

  /** The token: the header minus its first seven characters, when it starts with exactly "Bearer ". */
  function BearerToken(header: Option<string>): (r: Option<string>)
    ensures r.Some? <==> header.Some? && StartsWith(header.value, Scheme)
    ensures r.Some? ==> header.value == Scheme + r.value
  {
    if header.Some? && |header.value| > 0 && StartsWith(header.value, Scheme)
    then Some(header.value[|Scheme|..])
    else None
  }

  /** Prefixing the scheme and extracting the token are inverse. */
  lemma BearerTokenRoundTrip(token: string)
    ensures BearerToken(Some(Scheme + token)) == Some(token)
  {
    assert (Scheme + token)[..|Scheme|] == Scheme;
    assert (Scheme + token)[|Scheme|..] == token;
  }

  /** The scheme name is compared case-sensitively: a lower-case "bearer " is refused. */
  lemma SchemeIsCaseSensitive(token: string)
    ensures BearerToken(Some("bearer " + token)).None?
  {
    assert ("bearer " + token)[0] == 'b';
  }

  /** `authMiddleware`, with `verify` standing for `verifyToken` (`None` for its `null`). */
  function Authenticate(header: Option<string>, verify: string -> Option<Payload>): (r: Outcome)
    ensures r.Reject? ==> r.status == 401
    ensures BearerToken(header).None? ==> r == Reject(401, TokenRequired)
    ensures BearerToken(header).Some? && verify(BearerToken(header).value).None? ==> r == Reject(401, InvalidToken)
    ensures r.Admit? <==> BearerToken(header).Some? && verify(BearerToken(header).value).Some?
    ensures r.Admit? ==> Some(r.user) == verify(BearerToken(header).value)
  {
    match BearerToken(header)
    case None => Reject(401, TokenRequired)
    case Some(token) =>
      match verify(token)
      case None => Reject(401, InvalidToken)
      case Some(payload) => Admit(payload)
  }
}
