/** `authenticate`: reads a bearer token from the Authorization header (the header form of
    section 2.1 of RFC 6750, with the scheme matched case-sensitively), verifies it and makes
    its payload the request's user. */
module AuthMiddleware {
  import opened Types

  /** What token verification does with a token string: yield its payload, or throw an error
      of the given name. Signature checking is not part of the model. */
  datatype Verification = Verified(payload: Claims) | Failed(errorName: string)

  const BearerPrefix: string := "Bearer "

  predicate StartsWith(s: string, prefix: string)
  {
    |prefix| <= |s| && s[..|prefix|] == prefix
  }

  /** The middleware's answer: the user to attach before calling the next handler, or a 401. */
  function Authenticate(header: Option<string>, verify: string -> Verification): (r: Result<Claims>)
    ensures header.None? || !StartsWith(header.value, BearerPrefix) ==> r == Err(ApiError(401, "No token provided"))
    ensures r.Ok? ==>
      header.Some? && StartsWith(header.value, BearerPrefix) && verify(header.value[|BearerPrefix|..]) == Verified(r.value)
    ensures r.Err? ==> r.error.status == 401
    ensures r.Err? && header.Some? && StartsWith(header.value, BearerPrefix) ==>
      var v := verify(header.value[|BearerPrefix|..]);
      v.Failed? && r.error.message == if v.errorName == "TokenExpiredError" then "Token expired" else "Invalid token"
  {
    if header.None? || header.value == "" || !StartsWith(header.value, BearerPrefix) then
      Err(ApiError(401, "No token provided"))
    else
      match verify(header.value[7..])
      case Verified(payload) => Ok(payload)
      case Failed(name) =>
        if name == "TokenExpiredError" then Err(ApiError(401, "Token expired"))
        else Err(ApiError(401, "Invalid token"))
  }

  /** A header built as `Bearer <token>` hands exactly `<token>` to verification and is decided by
      what verification says about it. */
  lemma BearerRoundTrip(token: string, verify: string -> Verification)
    ensures var r := Authenticate(Some(BearerPrefix + token), verify);
      match verify(token)
      case Verified(payload) => r == Ok(payload)
      case Failed(name) => r.Err? && r.error.message == (if name == "TokenExpiredError" then "Token expired" else "Invalid token")
  {
    assert (BearerPrefix + token)[..|BearerPrefix|] == BearerPrefix;
    assert (BearerPrefix + token)[7..] == token;
  }
}
