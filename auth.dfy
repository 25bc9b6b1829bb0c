/**
 * The authentication handlers of internal/handlers/auth.go: the request gate
 * `VerifyToken` and the `SignIn`, `Refresh` and `Logout` endpoints.
 *
 * Each handler is a function from what the request carries (the
 * `Authorization` header, the decoded body, the `refresh_token` cookie), the
 * answers of the service it calls, the configuration and the current time to
 * the response it writes and the service calls it makes.
 */
module Auth {
  import opened GoStrings
  import opened Http

  /** The credentials a sign-in request decodes into (entities.Auth). */
  datatype Credentials = Credentials(login: string, password: string)

  /** An access / refresh token pair (entities.Token). */
  datatype TokenPair = TokenPair(access: Bytes, rt: Bytes)

  /** The kinds of user a token can be minted for. */
  datatype TokenType = Admin | User

  /** The parameters `service.NewToken` mints a pair from. */
  datatype TokenParams = TokenParams(kind: TokenType, hs256Secret: string, accessTokenExp: Int64, refreshTokenExp: Int64)

  /** The configuration the handlers read: the signing secret, access lifetime in minutes, refresh lifetime in days. */
  datatype Config = Config(hs256Secret: string, accessTokenExp: Int64, refreshTokenExp: Int64)

  /**
   * The `AuthService` the handlers call. Its implementation (token codec,
   * revocation store) is not part of this model: each call is an arbitrary
   * function, and every property below holds for all of them.
   */
  datatype AuthService = AuthService(
    singIn: Credentials -> Result<TokenPair>,
    verify: Bytes -> Option<GoError>,
    logout: (Bytes, Int64) -> Option<GoError>,
    checkToken: Bytes -> bool)

  /** A call into the service, as recorded in a response's trace. */
  datatype Call =
    | SingInCall(auth: Credentials)
    | VerifyCall(token: Bytes)
    | LogoutCall(token: Bytes, ttl: Int64)
    | CheckTokenCall(token: Bytes)
    | NewTokenCall(params: TokenParams)

  const RefreshCookieName := "refresh_token"
  const RefreshCookiePath := "/admin/auth"

  /** The text of jwt.ErrSignatureInvalid in golang-jwt. */
  const SignatureInvalidText := "signature is invalid"

  /** `time.Duration(cfg.RefreshTokenExp) * 24 * time.Hour`, with int64 wrap-around. */
  function RefreshLifetime(cfg: Config): (d: Int64)
    ensures (d - cfg.refreshTokenExp * 24 * Hour) % (2 * TwoTo63) == 0
  {
    var days := Mul64(cfg.refreshTokenExp, 24);
    Mul64Congruent(days, Hour, cfg.refreshTokenExp * 24);
    Mul64(days, Hour)
  }

  /** `time.Duration(cfg.AccessTokenExp) * time.Minute`, with int64 wrap-around. */
  function AccessLifetime(cfg: Config): (d: Int64)
    ensures (d - cfg.accessTokenExp * Minute) % (2 * TwoTo63) == 0
  {
    Mul64(cfg.accessTokenExp, Minute)
  }

  /** Multiplying by `b` keeps a product congruent to `y` modulo 2^64 congruent to `y * b`. */
  lemma Mul64Congruent(a: Int64, b: Int64, y: int)
    requires (a - y) % (2 * TwoTo63) == 0
    ensures (Mul64(a, b) - y * b) % (2 * TwoTo63) == 0
  {
    var m := 2 * TwoTo63;
    var p := a * b;
    var l := (Wrap64(p) - p) / m;
    assert Wrap64(p) - p == l * m;
    var k := (a - y) / m;
    assert a - y == k * m;
    ScaledMultiple(a, y, b, k);
    assert Wrap64(p) - y * b == (l + k * b) * m;
  }

  /** If `a - y` is `k` times 2^64, then `a * b - y * b` is `k * b` times 2^64. */
  lemma ScaledMultiple(a: int, y: int, b: int, k: int)
    requires a - y == k * (2 * TwoTo63)
    ensures a * b - y * b == (k * b) * (2 * TwoTo63)
  {
  }

  /** The largest refresh lifetime, in days, whose duration fits in an int64. */
  const MaxRefreshDays := 106751

  /** The largest access lifetime, in minutes, whose duration fits in an int64. */
  const MaxAccessMinutes := 153722867

  /** The refresh-token cookie that SignIn and Refresh set. */
  function RefreshCookie(rt: Bytes, cfg: Config, now: Instant): (c: Cookie)
    ensures c.name == RefreshCookieName && c.path == RefreshCookiePath && c.value == rt
    ensures 0 <= cfg.refreshTokenExp <= MaxRefreshDays ==>
      c.expires == now + cfg.refreshTokenExp * 24 * Hour && c.expires >= now
  {
    Cookie(RefreshCookieName, rt, RefreshCookiePath, now + RefreshLifetime(cfg))
  }

  /** The cookie Logout sets to clear the refresh token. */
  function ClearedRefreshCookie(now: Instant): (c: Cookie)
    ensures c.name == RefreshCookieName && c.path == RefreshCookiePath
    ensures c.value == [] && c.expires < now
  {
    Cookie(RefreshCookieName, [], RefreshCookiePath, now - Second)
  }

  // ---------------------------------------------------------------------------
  // The gate

  /** What the gate decides: run the wrapped handler, or reply with an error. */
  datatype Verdict = ServeNext | Reject(status: int, message: string)

  datatype GateOutcome = GateOutcome(verdict: Verdict, calls: seq<Call>)

  /** How the gate answers a `Verify` error: expiry first, then a bad signature, then anything else. */
  function GateRejection(err: GoError): (v: Verdict)
    ensures v.Reject?
    ensures err.Is(ErrTokenExpired) ==> v == Reject(StatusUnauthorized, err.text)
    ensures !err.Is(ErrTokenExpired) && Contains(err.text, SignatureInvalidText) ==>
      v == Reject(StatusForbidden, "wrong signature")
    ensures !err.Is(ErrTokenExpired) && !Contains(err.text, SignatureInvalidText) ==>
      v == Reject(StatusForbidden, "wrong token")
  {
    if err.Is(ErrTokenExpired) then Reject(StatusUnauthorized, err.text)
    else if Contains(err.text, SignatureInvalidText) then Reject(StatusForbidden, "wrong signature")
    else Reject(StatusForbidden, "wrong token")
  }

  /**
   * `VerifyToken`: the handler it wraps runs exactly when the header holds a
   * second space-separated field, `Verify` accepts that field and `CheckToken`
   * says it has not been logged out.
   */
  function VerifyToken(svc: AuthService, authorization: Bytes): (g: GateOutcome)
    ensures g.verdict == ServeNext <==>
      Space in authorization
      && svc.verify(BearerToken(authorization)) == None
      && svc.checkToken(BearerToken(authorization))
  {
    var fields := Split(authorization);
    TwoFieldsIffSpace(authorization);
    if |fields| < 2 then
      GateOutcome(Reject(StatusUnauthorized, "access token required"), [])
    else
      var accessToken := fields[1];
      SecondFieldIsBearerToken(authorization);
      match svc.verify(accessToken)
      case Some(err) => GateOutcome(GateRejection(err), [VerifyCall(accessToken)])
      case None =>
        if !svc.checkToken(accessToken) then
          GateOutcome(Reject(StatusForbidden, "you already logged out"), [VerifyCall(accessToken), CheckTokenCall(accessToken)])
        else
          GateOutcome(ServeNext, [VerifyCall(accessToken), CheckTokenCall(accessToken)])
  }

  /** A header without a separator (a missing header included) is refused with 401 before any service call. */
  lemma GateRequiresTwoFields(svc: AuthService, authorization: Bytes)
    requires Space !in authorization
    ensures VerifyToken(svc, authorization) == GateOutcome(Reject(StatusUnauthorized, "access token required"), [])
  {
    TwoFieldsIffSpace(authorization);
  }

  /**
   * With a separator present, `Verify` is called first, and every service
   * call is made with the bearer token: the bytes between the first separator
   * and the next one.
   */
  lemma GateUsesSecondField(svc: AuthService, authorization: Bytes)
    requires Space in authorization
    ensures var g := VerifyToken(svc, authorization);
      |g.calls| >= 1 && g.calls[0] == VerifyCall(BearerToken(authorization))
      && forall k :: 0 <= k < |g.calls| ==> g.calls[k].token == BearerToken(authorization)
  {
    SecondFieldIsBearerToken(authorization);
  }

  /**
   * The outcome of a failed `Verify` is decided by the error alone, and
   * `CheckToken` is never consulted; a verified token that `CheckToken`
   * refuses gets 403 "you already logged out".
   */
  lemma GateVerifyBeforeCheckToken(svc: AuthService, authorization: Bytes)
    requires Space in authorization
    ensures var g := VerifyToken(svc, authorization); var t := BearerToken(authorization);
      match svc.verify(t)
      case Some(err) => g == GateOutcome(GateRejection(err), [VerifyCall(t)])
      case None =>
        g.calls == [VerifyCall(t), CheckTokenCall(t)]
        && (!svc.checkToken(t) ==> g.verdict == Reject(StatusForbidden, "you already logged out"))
  {
    SecondFieldIsBearerToken(authorization);
  }

  /** `CheckToken` is only ever asked about a token that `Verify` accepted. */
  lemma GateChecksOnlyVerifiedTokens(svc: AuthService, authorization: Bytes, t: Bytes)
    requires CheckTokenCall(t) in VerifyToken(svc, authorization).calls
    ensures svc.verify(t) == None
  {
  }

  /** The scheme (the first field) is never examined: any two separator-free schemes give the same outcome. */
  lemma GateIgnoresScheme(svc: AuthService, scheme1: Bytes, scheme2: Bytes, credentials: Bytes)
    requires Space !in scheme1 && Space !in scheme2
    ensures VerifyToken(svc, scheme1 + [Space] + credentials) == VerifyToken(svc, scheme2 + [Space] + credentials)
  {
    SplitAfterPrefix(scheme1, credentials);
    SplitAfterPrefix(scheme2, credentials);
    TwoFieldsIffSpace(scheme1 + [Space] + credentials);
    TwoFieldsIffSpace(scheme2 + [Space] + credentials);
  }

  /** Fields after the second are never examined. */
  lemma GateIgnoresTrailingFields(svc: AuthService, authorization: Bytes, extra: Bytes)
    requires Space in authorization
    ensures VerifyToken(svc, authorization + [Space] + extra) == VerifyToken(svc, authorization)
  {
    TwoFieldsIffSpace(authorization);
    TrailingFieldsIgnored(authorization, extra);
  }

  /** An expiry error is answered with 401 even when its text also reports a bad signature. */
  lemma GateExpiryTakesPrecedence(svc: AuthService, authorization: Bytes, text: string)
    requires Space in authorization
    requires svc.verify(BearerToken(authorization)) == Some(GoError({ErrTokenExpired}, text))
    ensures VerifyToken(svc, authorization).verdict == Reject(StatusUnauthorized, text)
  {
    SecondFieldIsBearerToken(authorization);
  }

  // ---------------------------------------------------------------------------
  // Sign-in

  /**
   * `SignIn`: a body that does not decode is refused with 400 before the
   * service is called; a wrong login or password gives 403, any other service
   * error 500; a minted pair gives 200 with the access token in the body and
   * the refresh token in the `refresh_token` cookie.
   */
  function SignIn(svc: AuthService, cfg: Config, now: Instant, body: Result<Credentials>): (r: Response<Call>)
    ensures body.Err? ==> r == Response(StatusBadRequest, ErrorText(body.error.text), None, [])
    ensures body.Ok? ==> r.calls == [SingInCall(body.value)]
    ensures r.status == StatusOK <==> body.Ok? && svc.singIn(body.value).Ok?
    ensures r.status == StatusOK ==>
      var pair := svc.singIn(body.value).value;
      r.body == AccessTokenJson(pair.access) && r.cookie == Some(RefreshCookie(pair.rt, cfg, now))
    ensures r.status != StatusOK ==> r.cookie == None && r.body.ErrorText?
    ensures body.Ok? && svc.singIn(body.value).Err? ==>
      && r.status == (if svc.singIn(body.value).error.Is(ErrWrongLoginOrPassword) then StatusForbidden else StatusInternalServerError)
      && r.body == ErrorText(svc.singIn(body.value).error.text)
  {
    match body
    case Err(decodeError) => Response(StatusBadRequest, ErrorText(decodeError.text), None, [])
    case Ok(auth) =>
      match svc.singIn(auth)
      case Err(err) =>
        var status := if err.Is(ErrWrongLoginOrPassword) then StatusForbidden else StatusInternalServerError;
        Response(status, ErrorText(err.text), None, [SingInCall(auth)])
      case Ok(token) =>
        Response(StatusOK, AccessTokenJson(token.access), Some(RefreshCookie(token.rt, cfg, now)), [SingInCall(auth)])
  }

  // ---------------------------------------------------------------------------
  // Refresh

  /** The parameters Refresh mints with: always an Admin pair, with the configured secret and lifetimes. */
  function AdminParams(cfg: Config): (p: TokenParams)
    ensures p.kind == Admin
    ensures p.hs256Secret == cfg.hs256Secret
    ensures p.accessTokenExp == cfg.accessTokenExp && p.refreshTokenExp == cfg.refreshTokenExp
  {
    TokenParams(Admin, cfg.hs256Secret, cfg.accessTokenExp, cfg.refreshTokenExp)
  }

  /** How Refresh answers a `Verify` error: as the gate for expiry and bad signatures, 500 otherwise. */
  function RefreshRejection(err: GoError): (reply: (int, string))
    ensures err.Is(ErrTokenExpired) ==> reply == (StatusUnauthorized, err.text)
    ensures !err.Is(ErrTokenExpired) && Contains(err.text, SignatureInvalidText) ==>
      reply == (StatusForbidden, "wrong signature")
    ensures !err.Is(ErrTokenExpired) && !Contains(err.text, SignatureInvalidText) ==>
      reply == (StatusInternalServerError, "verify rt failed: " + err.text)
  {
    if err.Is(ErrTokenExpired) then (StatusUnauthorized, err.text)
    else if Contains(err.text, SignatureInvalidText) then (StatusForbidden, "wrong signature")
    else (StatusInternalServerError, "verify rt failed: " + err.text)
  }

  /**
   * `Refresh`: reads the `refresh_token` cookie, has `Verify` check it, and
   * mints a new pair with `service.NewToken` (here the parameter `newToken`).
   */
  function Refresh(svc: AuthService, newToken: TokenParams -> Result<TokenPair>, cfg: Config, now: Instant,
                   cookie: Result<Bytes>): (r: Response<Call>)
    ensures cookie.Err? ==>
      && r.calls == [] && r.cookie == None
      && r.status == (if cookie.error.Is(ErrNoCookie) then StatusForbidden else StatusInternalServerError)
      && r.body == ErrorText(if cookie.error.Is(ErrNoCookie) then "bad refresh token" else cookie.error.text)
    ensures cookie.Ok? ==> |r.calls| >= 1 && r.calls[0] == VerifyCall(cookie.value)
    ensures cookie.Ok? && svc.verify(cookie.value).Some? ==>
      r.calls == [VerifyCall(cookie.value)] && r.cookie == None
      && (r.status, r.body) == (RefreshRejection(svc.verify(cookie.value).value).0,
                                 ErrorText(RefreshRejection(svc.verify(cookie.value).value).1))
    ensures NewTokenCall(AdminParams(cfg)) in r.calls <==> cookie.Ok? && svc.verify(cookie.value) == None
    ensures forall c :: c in r.calls && c.NewTokenCall? ==> c.params == AdminParams(cfg)
    ensures r.status == StatusOK <==>
      cookie.Ok? && svc.verify(cookie.value) == None && newToken(AdminParams(cfg)).Ok?
    ensures r.status == StatusOK ==>
      var pair := newToken(AdminParams(cfg)).value;
      r.body == AccessTokenJson(pair.access) && r.cookie == Some(RefreshCookie(pair.rt, cfg, now))
    ensures cookie.Ok? && svc.verify(cookie.value) == None && newToken(AdminParams(cfg)).Err? ==>
      && r.cookie == None
      && r.status == (if newToken(AdminParams(cfg)).error.Is(ErrUnknownType) then StatusBadRequest else StatusInternalServerError)
      && r.body == ErrorText(newToken(AdminParams(cfg)).error.text)
  {
    match cookie
    case Err(err) =>
      if err.Is(ErrNoCookie) then Response(StatusForbidden, ErrorText("bad refresh token"), None, [])
      else Response(StatusInternalServerError, ErrorText(err.text), None, [])
    case Ok(refresh) =>
      match svc.verify(refresh)
      case Some(err) =>
        var (status, message) := RefreshRejection(err);
        Response(status, ErrorText(message), None, [VerifyCall(refresh)])
      case None =>
        var params := AdminParams(cfg);
        var calls := [VerifyCall(refresh), NewTokenCall(params)];
        match newToken(params)
        case Err(err) =>
          var status := if err.Is(ErrUnknownType) then StatusBadRequest else StatusInternalServerError;
          Response(status, ErrorText(err.text), None, calls)
        case Ok(token) =>
          Response(StatusOK, AccessTokenJson(token.access), Some(RefreshCookie(token.rt, cfg, now)), calls)
  }

  /**
   * Refresh and the gate agree on expired tokens and bad signatures, and
   * disagree on every other verification error: the gate answers 403, Refresh 500.
   */
  lemma RefreshAndGateClassification(err: GoError)
    ensures (err.Is(ErrTokenExpired) || Contains(err.text, SignatureInvalidText)) <==>
      RefreshRejection(err).0 == GateRejection(err).status
    ensures !(err.Is(ErrTokenExpired) || Contains(err.text, SignatureInvalidText)) ==>
      GateRejection(err).status == StatusForbidden && RefreshRejection(err).0 == StatusInternalServerError
  {
  }

  /**
   * What Refresh mints does not depend on the refresh token presented: any
   * two tokens that `Verify` accepts lead to the same NewToken call and the
   * same response. Refresh never revokes the token it consumed, and never
   * consults CheckToken.
   */
  lemma RefreshIgnoresPresentedToken(svc: AuthService, newToken: TokenParams -> Result<TokenPair>, cfg: Config,
                                      now: Instant, rt1: Bytes, rt2: Bytes)
    requires svc.verify(rt1) == None && svc.verify(rt2) == None
    ensures var r1 := Refresh(svc, newToken, cfg, now, Ok(rt1));
            var r2 := Refresh(svc, newToken, cfg, now, Ok(rt2));
      r1.status == r2.status && r1.body == r2.body && r1.cookie == r2.cookie
      && r1.calls[1..] == r2.calls[1..] == [NewTokenCall(AdminParams(cfg))]
      && forall c :: c in r1.calls ==> !c.LogoutCall? && !c.CheckTokenCall?
  {
  }

  // ---------------------------------------------------------------------------
  // Logout

  /**
   * `Logout`: the same two-field header rule as the gate; the bearer token is
   * handed to the service's Logout with the full access-token lifetime as its
   * time to live, without being verified; success clears the refresh cookie.
   */
  function Logout(svc: AuthService, cfg: Config, now: Instant, authorization: Bytes): (r: Response<Call>)
    ensures Space !in authorization ==>
      r == Response(StatusUnauthorized, ErrorText("access token required"), None, [])
    ensures Space in authorization ==>
      r.calls == [LogoutCall(BearerToken(authorization), AccessLifetime(cfg))]
    ensures r.status == StatusOK <==>
      Space in authorization && svc.logout(BearerToken(authorization), AccessLifetime(cfg)) == None
    ensures r.status == StatusOK ==> r.cookie == Some(ClearedRefreshCookie(now)) && r.body == NoBody
    ensures r.status != StatusOK ==> r.cookie == None
    ensures Space in authorization && svc.logout(BearerToken(authorization), AccessLifetime(cfg)).Some? ==>
      && r.status == StatusInternalServerError
      && r.body == ErrorText(svc.logout(BearerToken(authorization), AccessLifetime(cfg)).value.text)
  {
    var ttl := AccessLifetime(cfg);
    var fields := Split(authorization);
    TwoFieldsIffSpace(authorization);
    if |fields| < 2 then
      Response(StatusUnauthorized, ErrorText("access token required"), None, [])
    else
      var accessToken := fields[1];
      SecondFieldIsBearerToken(authorization);
      match svc.logout(accessToken, ttl)
      case Some(err) => Response(StatusInternalServerError, ErrorText(err.text), None, [LogoutCall(accessToken, ttl)])
      case None => Response(StatusOK, NoBody, Some(ClearedRefreshCookie(now)), [LogoutCall(accessToken, ttl)])
  }

  /** The revocation time to live is the configured access lifetime in minutes, whatever the token. */
  lemma LogoutTtlIsAccessLifetime(cfg: Config)
    requires 0 <= cfg.accessTokenExp <= MaxAccessMinutes
    ensures AccessLifetime(cfg) == cfg.accessTokenExp * Minute
    ensures AccessLifetime(cfg) >= 0
  {
  }

  /** Logout accepts a token without asking Verify or CheckToken about it. */
  lemma LogoutNeverVerifies(svc: AuthService, cfg: Config, now: Instant, authorization: Bytes)
    ensures forall c :: c in Logout(svc, cfg, now, authorization).calls ==> c.LogoutCall?
  {
  }

  /**
   * The cookie a successful Logout writes (see Logout) has the name and path of the one
   * SignIn and Refresh set, so it replaces it, with an empty value that has
   * already expired.
   */
  lemma LogoutReplacesRefreshCookie(cfg: Config, now: Instant, rt: Bytes, issuedAt: Instant)
    ensures var cleared := ClearedRefreshCookie(now);
            var issued := RefreshCookie(rt, cfg, issuedAt);
      cleared.name == issued.name && cleared.path == issued.path
      && cleared.value == [] && cleared.expires < now
  {
  }

  // ---------------------------------------------------------------------------
  // Durations

  /** Within int64 range the refresh lifetime is exactly the configured number of days. */
  lemma RefreshLifetimeInRange(cfg: Config)
    requires -MaxRefreshDays <= cfg.refreshTokenExp <= MaxRefreshDays
    ensures RefreshLifetime(cfg) == cfg.refreshTokenExp * 24 * Hour
  {
  }

  /**
   * Past the int64 range the duration wraps: from 106752 to 213503 days it is
   * negative, so the cookie is born expired.
   */
  lemma RefreshLifetimeOverflow(cfg: Config, now: Instant)
    requires MaxRefreshDays < cfg.refreshTokenExp <= 2 * MaxRefreshDays + 1
    ensures RefreshLifetime(cfg) < 0
    ensures RefreshCookie([], cfg, now).expires < now
  {
    var d := cfg.refreshTokenExp;
    assert Mul64(d, 24) == d * 24;
    assert TwoTo63 <= d * 24 * Hour < 2 * TwoTo63;
  }

  /** At 213504 days the duration has wrapped back to a positive value, far short of the configured lifetime. */
  lemma RefreshLifetimeWrapsBack(cfg: Config)
    requires cfg.refreshTokenExp == 2 * (MaxRefreshDays + 1)
    ensures 0 < RefreshLifetime(cfg) < Hour
  {
    var d := cfg.refreshTokenExp;
    assert Mul64(d, 24) == d * 24;
  }
}
