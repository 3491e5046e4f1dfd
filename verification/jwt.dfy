/** middleware/jwt.go without the signing library: the checks JWTMiddleware
    makes on the Authorization header before it parses the token, and the
    claims GenerateJWT signs. Signing and verifying the token (HS256) are
    foreign: the handlers receive a `sign` function instead. */
module Jwt {
  import opened Common

  const BearerPrefix: string := "Bearer "

  /** The middleware either answers 401 itself or hands the token string on
      to the parser. */
  datatype HeaderCheck = Rejected(status: int, message: string) | Bearer(token: string)

  function CheckAuthorization(header: string): (r: HeaderCheck)
    ensures r.Rejected? ==> r.status == StatusUnauthorized
    ensures header == "" ==> r == Rejected(StatusUnauthorized, "Missing or invalid Authorization header")
    ensures header != "" && !(BearerPrefix <= header) ==>
              r == Rejected(StatusUnauthorized, "Invalid Authorization header format")
    ensures r.Bearer? <==> BearerPrefix <= header
    ensures r.Bearer? ==> BearerPrefix + r.token == header
  {
    if header == "" then Rejected(StatusUnauthorized, "Missing or invalid Authorization header")
    else if !(BearerPrefix <= header) then Rejected(StatusUnauthorized, "Invalid Authorization header format")
    else Bearer(header[|BearerPrefix|..])
  }

  /** A header built from a token gives that token back, whatever it is
      (the empty token included). */
  lemma BearerRoundTrip(token: string)
    ensures CheckAuthorization(BearerPrefix + token) == Bearer(token)
  {
    var header := BearerPrefix + token;
    assert BearerPrefix <= header;
    assert header[|BearerPrefix|..] == token;
  }

  /** The claims of a token: "sub", "first_name" and "exp" (Unix seconds). */
  datatype Claims = Claims(sub: nat, firstName: string, exp: Time)

  const TokenLifetime: int := 24 * OneHour

  /** GenerateJWT's claims, minted at `now`: the subject and first name
      given, valid for a day from then. */
  function NewClaims(userId: nat, firstName: string, now: Time): (c: Claims)
    ensures c.sub == userId && c.firstName == firstName
    ensures c.exp > now && c.exp - now == 24 * 60 * 60
  {
    Claims(userId, firstName, now + TokenLifetime)
  }
}
