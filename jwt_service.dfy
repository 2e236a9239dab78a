/**
 * `JWTService` (backend/services/jwt_service.py): the payload that
 * `create_token` signs and the checks of the `token_required` guard.
 * Signing and `jwt.decode` are an oracle from token text to a
 * verification result; the clock is an input.
 */
module JwtService {
  import opened Wrappers
  import opened Values
  import opened PyStr

  const DefaultExpireSeconds: int := 300
  const BearerPrefix := "Bearer "

  /**
   * The claims `create_token` signs: the user data, then `exp`, `iss` and
   * `type` (which override same-named user keys), and a `jti` for refresh
   * tokens.  `now` is the current UTC time in seconds.
   */
  function CreateTokenPayload(userData: map<string, Value>, expiresIn: Option<int>, tokenType: string,
                              jti: Value, now: int, issuer: Value): (payload: map<string, Value>)
    ensures "type" in payload && payload["type"] == Str(tokenType)
    ensures "iss" in payload && payload["iss"] == issuer
    ensures "exp" in payload && payload["exp"] == Num((now + (if expiresIn.Some? then expiresIn.value else DefaultExpireSeconds)) as real)
    ensures tokenType == "refresh" ==> "jti" in payload && payload["jti"] == jti
    ensures tokenType != "refresh" ==> ("jti" in payload <==> "jti" in userData)
    ensures forall k :: k in userData && k !in {"exp", "iss", "type", "jti"} ==> k in payload && payload[k] == userData[k]
    ensures forall k :: k in payload ==> k in userData || k in {"exp", "iss", "type", "jti"}
  {
    var seconds := if expiresIn.Some? then expiresIn.value else DefaultExpireSeconds;
    var base := userData["exp" := Num((now + seconds) as real)]["iss" := issuer]["type" := Str(tokenType)];
    if tokenType == "refresh" then base["jti" := jti] else base
  }

  /**
   * Which token the guard examines: the second space-separated piece of an
   * `Authorization: Bearer …` header, unless a refresh token is expected,
   * in which case (and when there is no such header) the `refresh_token`
   * cookie.
   */
  function SelectToken(header: Option<string>, cookie: Option<string>, expectedType: string): (token: Option<string>)
    ensures expectedType == "refresh" ==> token == cookie
    ensures !(header.Some? && StartsWith(header.value, BearerPrefix)) ==> token == cookie
  {
    if header.Some? && header.value != "" && StartsWith(header.value, BearerPrefix) && expectedType != "refresh" then
      var h := header.value;
      assert h[..6] == "Bearer" && h[6] == ' ';
      SplitSecond(h, ' ', 6);
      Some(Split(h, ' ')[1])
    else cookie
  }

  /** With a Bearer header and a non-refresh type, the token is the header text after `Bearer ` up to the next space. */
  lemma BearerToken(h: string, cookie: Option<string>, expectedType: string)
    requires StartsWith(h, BearerPrefix) && expectedType != "refresh"
    ensures SelectToken(Some(h), cookie, expectedType) == Some(UpTo(h[7..], ' '))
  {
    assert h[..6] == "Bearer" && h[6] == ' ';
    SplitSecond(h, ' ', 6);
  }

  /** What `verify_token` gives: the claims, None (expired or invalid), or another exception. */
  datatype Verification = Decoded(claims: map<string, Value>) | Invalid | Raised(reason: string)

  /** Why the guard answers 401. */
  datatype DenyReason =
    | MissingToken                               // "Falta el token o está mal formado"
    | InvalidToken                               // "Token es invalido o expirado"
    | WrongType(expected: string, got: Value)    // "Tipo de Toke invalido. Esperado …"
    | ProcessingError(reason: string)            // "Token processing error: …"

  /** The guard's decision: run the handler with `current_user`, or answer 401. */
  datatype GuardResult = Allow(currentUser: map<string, Value>) | Deny(status: int, reason: DenyReason)

  const WrongTypeHead := "Tipo de Toke invalido. Esperado '"
  const ProcessingHead := "Token processing error: "

  /**
   * The error text the guard sends for each reason; `str` is Python's
   * `str()` of the claim the f-string interpolates.  The fixed texts tell
   * the reasons apart, and the expected type and the exception text can be
   * read back from theirs.
   */
  function DenyMessage(r: DenyReason, str: Value -> string): (m: string)
    ensures r.MissingToken? <==> m == "Falta el token o está mal formado"
    ensures r.InvalidToken? <==> m == "Token es invalido o expirado"
    ensures r.WrongType? ==>
      && StartsWith(m, WrongTypeHead) && |m| >= |WrongTypeHead| + |r.expected|
      && m[|WrongTypeHead|..][..|r.expected|] == r.expected
    ensures r.ProcessingError? ==> StartsWith(m, ProcessingHead) && m[|ProcessingHead|..] == r.reason
  {
    match r
    case MissingToken => "Falta el token o está mal formado"
    case InvalidToken => "Token es invalido o expirado"
    case WrongType(expected, got) =>
      var m := WrongTypeHead + expected + "', se obtuvo'" + str(got) + "'";
      assert m[..|WrongTypeHead|] == WrongTypeHead && m[1] == 'i';
      assert m[|WrongTypeHead|..][..|expected|] == expected;
      m
    case ProcessingError(e) =>
      var m := ProcessingHead + e;
      assert m[..|ProcessingHead|] == ProcessingHead && m[1] == 'o' && m[6] == 'p';
      m
  }

  /** `token_required(expected_type)` for one request. */
  function TokenRequired(expectedType: string, header: Option<string>, cookie: Option<string>,
                         verify: string -> Verification): (r: GuardResult)
    ensures r.Deny? ==> r.status == 401
    ensures r.Allow? <==>
      var t := SelectToken(header, cookie, expectedType);
      && t.Some? && t.value != ""
      && verify(t.value).Decoded? && verify(t.value).claims != map[]
      && Get(verify(t.value).claims, "type") == Str(expectedType)
    ensures r.Allow? ==> r.currentUser == verify(SelectToken(header, cookie, expectedType).value).claims
  {
    match SelectToken(header, cookie, expectedType)
    case None => Deny(401, MissingToken)
    case Some(token) =>
      if token == "" then Deny(401, MissingToken)
      else match verify(token)
        case Raised(m) => Deny(401, ProcessingError(m))
        case Invalid => Deny(401, InvalidToken)
        case Decoded(data) =>
          if data == map[] then Deny(401, InvalidToken)
          else if Get(data, "type") != Str(expectedType) then Deny(401, WrongType(expectedType, Get(data, "type")))
          else Allow(data)
  }

  /** A missing or empty token is refused before the verifier is consulted. */
  lemma MissingTokenRefused(expectedType: string, header: Option<string>, cookie: Option<string>,
                            verify1: string -> Verification, verify2: string -> Verification)
    requires var t := SelectToken(header, cookie, expectedType); t.None? || t.value == ""
    ensures TokenRequired(expectedType, header, cookie, verify1) == Deny(401, MissingToken)
    ensures TokenRequired(expectedType, header, cookie, verify2) == Deny(401, MissingToken)
  {
  }

  /** A refresh guard reads only the cookie: the header never matters. */
  lemma RefreshIgnoresHeader(header1: Option<string>, header2: Option<string>, cookie: Option<string>,
                             verify: string -> Verification)
    ensures TokenRequired("refresh", header1, cookie, verify) == TokenRequired("refresh", header2, cookie, verify)
  {
  }

  /** A token of another type is refused, naming both types. */
  lemma WrongTypeRefused(expectedType: string, header: Option<string>, cookie: Option<string>,
                         verify: string -> Verification)
    requires var t := SelectToken(header, cookie, expectedType);
      && t.Some? && t.value != "" && verify(t.value).Decoded? && verify(t.value).claims != map[]
      && Get(verify(t.value).claims, "type") != Str(expectedType)
    ensures TokenRequired(expectedType, header, cookie, verify)
         == Deny(401, WrongType(expectedType, Get(verify(SelectToken(header, cookie, expectedType).value).claims, "type")))
  {
  }

  /**
   * Tokens of the expected type that `create_token` issued, and that the
   * verifier still accepts, pass the guard with their own payload as
   * `current_user`; tokens of any other type do not.
   */
  lemma CreatedTokenAccepted(userData: map<string, Value>, expiresIn: Option<int>, tokenType: string,
                             jti: Value, now: int, issuer: Value, expectedType: string,
                             header: Option<string>, cookie: Option<string>, verify: string -> Verification)
    requires var t := SelectToken(header, cookie, expectedType);
      && t.Some? && t.value != ""
      && verify(t.value) == Decoded(CreateTokenPayload(userData, expiresIn, tokenType, jti, now, issuer))
    ensures TokenRequired(expectedType, header, cookie, verify).Allow? <==> tokenType == expectedType
    ensures tokenType == expectedType ==>
      TokenRequired(expectedType, header, cookie, verify)
        == Allow(CreateTokenPayload(userData, expiresIn, tokenType, jti, now, issuer))
  {
    var payload := CreateTokenPayload(userData, expiresIn, tokenType, jti, now, issuer);
    assert "type" in payload;
  }
}
