/** The gateway's own decisions in `server.js`: the startup guard on the
    signing secret, the hard-coded login, and the bearer-token check that
    `authMiddleware` makes. Signing and verifying a token belong to the
    `jsonwebtoken` library and are passed in as opaque functions. */
module Auth {
  import opened Wrappers

  /** The claim set the gateway signs. It also stands for the payload that
      verification hands to `req.user`; the real payload is whatever the
      token carries (`iat`, `exp`, other claims), abstracted here because
      nothing in the gateway reads it. */
  datatype Claims = Claims(sub: string, role: string)

  /** The signing configuration read from the environment at startup. */
  datatype Config = Config(secret: string, expiresIn: string)

  /** `jwt.sign(payload, secret, { expiresIn })`: the token, or `None` where
      the library throws (for one, a lifetime it cannot read as a timespan). */
  type Signer = (Claims, string, string) -> Option<string>

  /** `jwt.verify(token, secret)` at the moment of the request: the payload,
      or `None` where the library throws (bad signature, expired, malformed). */
  type Verifier = (string, string) -> Option<Claims>

  /** The JSON bodies the gateway writes itself. */
  datatype Body =
    | ErrorBody(error: string)
    | TokenBody(token: string)
    | StatusBody(status: string)
    | ErrorPage  // the framework's default error page for an exception in a handler

  datatype Response = Response(status: nat, body: Body)

  const SecretMissing := "JWT_SECRET is not defined"
  const DefaultExpiresIn := "1d"

  /** Reads `JWT_SECRET` and `JWT_EXPIRES_IN`. An unset or empty secret is
      the startup error; an unset or empty lifetime falls back to one day. */
  function LoadConfig(jwtSecret: Option<string>, jwtExpiresIn: Option<string>): (r: Result<Config, string>)
    ensures r.Failure? <==> jwtSecret.None? || jwtSecret.value == ""
    ensures r.Failure? ==> r.error == SecretMissing
    ensures r.Success? ==> r.value.secret == jwtSecret.value && r.value.secret != ""
    ensures r.Success? ==> r.value.expiresIn != ""
    ensures r.Success? && jwtExpiresIn.Some? && jwtExpiresIn.value != "" ==>
      r.value.expiresIn == jwtExpiresIn.value
    ensures r.Success? && (jwtExpiresIn.None? || jwtExpiresIn.value == "") ==>
      r.value.expiresIn == DefaultExpiresIn
  {
    if jwtSecret.None? || jwtSecret.value == "" then Failure(SecretMissing)
    else
      var expiresIn := if jwtExpiresIn.Some? && jwtExpiresIn.value != "" then jwtExpiresIn.value
                       else DefaultExpiresIn;
      Success(Config(jwtSecret.value, expiresIn))
  }

  /** The `username` and `password` of a `/login` body; `None` for a field
      that is absent or not a string, which `!==` never equates to text. */
  datatype LoginBody = LoginBody(username: Option<string>, password: Option<string>)

  const InvalidCredentials := Response(401, ErrorBody("Invalid credentials"))

  /** What Express answers when a handler throws: status 500 and its error page. */
  const HandlerThrew := Response(500, ErrorPage)

  /** `POST /login`: only the exact strings `admin`/`admin` get past the
      check, and then the token is signed over `{sub: "admin", role: "admin"}`
      with the configured secret and lifetime; anything else is the same 401.
      A signing failure surfaces as the framework's 500. */
  function Login(body: LoginBody, cfg: Config, sign: Signer): (r: Response)
    ensures r.status == 200 ==> body.username == Some("admin") && body.password == Some("admin")
    ensures body.username != Some("admin") || body.password != Some("admin") ==> r == InvalidCredentials
    ensures body.username == Some("admin") && body.password == Some("admin") ==>
      match sign(Claims("admin", "admin"), cfg.secret, cfg.expiresIn)
      case Some(token) => r == Response(200, TokenBody(token))
      case None => r == HandlerThrew
  {
    if body.username != Some("admin") || body.password != Some("admin") then InvalidCredentials
    else
      match sign(Claims(body.username.value, "admin"), cfg.secret, cfg.expiresIn)
      case Some(token) => Response(200, TokenBody(token))
      case None => HandlerThrew
  }

  const BearerPrefix := "Bearer "

  /** The token of an `Authorization` header: present only when the header
      starts with `Bearer ` (case and the single space included), and then
      everything after those seven characters. */
  function BearerToken(header: Option<string>): (r: Option<string>)
    ensures r.Some? <==> header.Some? && BearerPrefix <= header.value
    ensures r.Some? ==> header.value == BearerPrefix + r.value
  {
    if header.Some? && BearerPrefix <= header.value then Some(header.value[7..]) else None
  }

  /** A header built as `Bearer ` plus a token gives that token back. */
  lemma BearerRoundTrip(token: string)
    ensures BearerToken(Some(BearerPrefix + token)) == Some(token)
  {
    assert (BearerPrefix + token)[7..] == token;
  }

  /** The scheme is matched case-sensitively and needs its space. */
  lemma BearerSchemeIsExact(token: string)
    ensures BearerToken(Some("bearer " + token)) == None
    ensures BearerToken(Some("Bearer")) == None
    ensures BearerToken(None) == None
  {
    assert ("bearer " + token)[0] == 'b';
  }

  const MissingHeader := Response(401, ErrorBody("Missing or invalid Authorization header"))
  const InvalidToken := Response(401, ErrorBody("Invalid or expired token"))

  /** What `authMiddleware` decides: admit with the verified payload, or deny
      with the response it writes. */
  datatype AuthResult = Admit(user: Claims) | Deny(response: Response)

  /** The decision of `authMiddleware`: a missing or non-`Bearer ` header and
      a token the verifier rejects are two different 401s; only a token the
      verifier accepts admits, carrying exactly the verified payload. */
  function Authenticate(header: Option<string>, cfg: Config, verify: Verifier): (r: AuthResult)
    ensures BearerToken(header).None? ==> r == Deny(MissingHeader)
    ensures BearerToken(header).Some? && verify(BearerToken(header).value, cfg.secret).None? ==>
      r == Deny(InvalidToken)
    ensures r.Admit? <==>
      BearerToken(header).Some? && verify(BearerToken(header).value, cfg.secret).Some?
    ensures r.Admit? ==> verify(BearerToken(header).value, cfg.secret) == Some(r.user)
    ensures r.Deny? ==> r.response.status == 401
  {
    match BearerToken(header)
    case None => Deny(MissingHeader)
    case Some(token) =>
      match verify(token, cfg.secret)
      case None => Deny(InvalidToken)
      case Some(payload) => Admit(payload)
  }
}
