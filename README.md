# Filmography request boundary, modelled in Dafny

This project models the request-boundary logic of the filmography REST
service. That service manages films, actors and users, and protects them with
JWT access and refresh tokens. Two handler files hold everything the boundary
decides.

- `internal/handlers/auth.go` holds the authentication gate `VerifyToken`,
  which wraps every protected route, and the `SignIn`, `Refresh` and `Logout`
  endpoints.
- `internal/handlers/film.go` holds `createFilm`, which runs three ordered
  bounds checks before handing a new film to the service, and `updateFilm`,
  which runs none of them.

Each handler is a pure function. It maps what the request carries to a
`Response`: the status, the body, the cookie set, and the ordered trace of
service calls the handler made. The request side is the `Authorization`
header as bytes, the decoded JSON body as a `Result`, and the
`refresh_token` cookie lookup as a `Result`. The service calls, the
configuration and the current time are inputs too. Recording the trace is
what makes statements such as "`CheckToken` is never consulted" or "the token
given to `Verify` is the second field" provable.

The service is an oracle. `AuthService` (`SingIn`, `Verify`, `Logout`,
`CheckToken`), `service.NewToken` and `FilmService` (`CreateFilm`,
`UpdateFilm`) are arbitrary functions passed in. Every property holds for all
of them. A Go error is its `errors.Is` sentinels plus its `Error()` text.
`strings.Split(h, " ")` is modelled on bytes, and its round trip with `Join`
is proved. That gives an independent reading of the bearer token: the bytes
after the first space, up to the next space or the end.

Main results:

- The protected handler runs if and only if three things hold: the header
  contains a space, `Verify` accepts the bearer token, and `CheckToken`
  accepts it (`Auth.VerifyToken`).
- The scheme in front of the token is never examined. Fields after the second
  are ignored.
- `Verify` errors are classified in a fixed order: expiry first, then a bad
  signature, then anything else.
- `Refresh` departs from the gate on "other" verification errors: it answers
  500 where the gate answers 403.
- `Refresh` mints an Admin pair that does not depend on which refresh token
  was presented. It never revokes that token.
- `Logout` hands any bearer token to the service's Logout without verifying
  it. The time to live it passes is always the full access lifetime.
- Durations use Go's int64 arithmetic with wrap-around. A refresh lifetime
  of 106752 to 213503 days wraps to a negative duration, so the cookie is set
  already expired. At 213504 days the duration wraps back to under an hour.

Three behaviours of the code worth knowing:

- `Logout` passes the full configured access lifetime as the revocation time
  to live, not the token's remaining lifetime.
- The gate accepts a header with two or more space-separated fields, not
  only exactly two.
- `Refresh` never revokes the refresh token it consumed.

## Model

| member | source | states |
|---|---|---|
| `GoStrings.Split` | internal/handlers/auth.go:80 | `strings.Split(h, " ")` yields one more field than there are spaces, and no field contains a space |
| `GoStrings.JoinSplit` | internal/handlers/auth.go:80 | joining the fields of a split with single spaces gives back the header exactly |
| `GoStrings.SplitJoin` | internal/handlers/auth.go:80 | splitting the join of space-free fields gives back the same fields |
| `GoStrings.TwoFieldsIffSpace` | internal/handlers/auth.go:80-81 | the `len(token) < 2` test fails exactly when the header holds no space; a missing header is the empty string and fails it |
| `GoStrings.SecondFieldOf` | internal/handlers/auth.go:80-85 | for any space-free scheme and token followed by nothing or by a space, `token[1]` is that token and `token[0]` that scheme |
| `GoStrings.SecondFieldLayout` | internal/handlers/auth.go:80-85 | conversely, a header with two or more fields is field 0, a space, field 1, then the end or another space |
| `GoStrings.SecondFieldIsBearerToken` | internal/handlers/auth.go:80-85 | `token[1]` equals the reference reading: the bytes after the first space, up to the next space or the end |
| `GoStrings.TrailingFieldsIgnored` | internal/handlers/auth.go:80-85 | appending a space and more bytes changes neither of the first two fields |
| `GoStrings.ContainsIsSubstring` | internal/handlers/auth.go:93 | the `strings.Contains` test on the error text holds exactly when the signature-invalid text occurs in it at some index |
| `Http.Wrap64` | internal/handlers/auth.go:60 | Go int64 products wrap modulo 2^64 into the int64 range and are exact when in range |
| `Auth.GateRejection` | internal/handlers/auth.go:87-102 | a `Verify` error is sorted expiry first (401 with its text), then signature-invalid text (403 "wrong signature"), then 403 "wrong token" |
| `Auth.VerifyToken` | internal/handlers/auth.go:78-111 | the wrapped handler runs if and only if the header has a space, `Verify` returns nil for the bearer token and `CheckToken` returns true for it |
| `Auth.GateRequiresTwoFields` | internal/handlers/auth.go:80-84 | a header without a space gives 401 "access token required" with no service call |
| `Auth.GateUsesSecondField` | internal/handlers/auth.go:85-105 | `Verify` is the first call, and every call the gate makes carries the bearer token |
| `Auth.GateVerifyBeforeCheckToken` | internal/handlers/auth.go:87-108 | a failed `Verify` decides the outcome alone without `CheckToken`; after a nil `Verify`, `CheckToken` is called, and false gives 403 "you already logged out" |
| `Auth.GateChecksOnlyVerifiedTokens` | internal/handlers/auth.go:105 | `CheckToken` is only asked about a token that `Verify` accepted |
| `Auth.GateIgnoresScheme` | internal/handlers/auth.go:80-85 | any two space-free schemes in front of the same credentials give the same outcome and calls |
| `Auth.GateIgnoresTrailingFields` | internal/handlers/auth.go:80-85 | fields after the second never change the outcome or the calls |
| `Auth.GateExpiryTakesPrecedence` | internal/handlers/auth.go:89-96 | an expiry error gets 401 even when its text also reports an invalid signature |
| `Auth.RefreshLifetime` | internal/handlers/auth.go:60 | the refresh duration is `RefreshTokenExp`×24h modulo 2^64, as Go's int64 product gives it |
| `Auth.AccessLifetime` | internal/handlers/auth.go:206 | the Logout time to live is `AccessTokenExp` minutes modulo 2^64, as Go's int64 product gives it |
| `Auth.RefreshCookie` | internal/handlers/auth.go:60-66 | the cookie is `refresh_token` holding the new refresh token, with path `/admin/auth`; for an in-range day count it expires `RefreshTokenExp`×24h after now |
| `Auth.SignIn` | internal/handlers/auth.go:35-75 | a decode failure gives 400 with no service call; `ErrWrongLoginOrPassword` gives 403 and other errors 500, with the error's text and no cookie; success gives 200, the access token in the body and the refresh cookie |
| `Auth.AdminParams` | internal/handlers/auth.go:157-162 | Refresh mints with type Admin and the configured secret and both lifetimes |
| `Auth.RefreshRejection` | internal/handlers/auth.go:139-155 | a `Verify` error on the refresh token gives 401 for expiry, 403 "wrong signature" for signature text, and otherwise 500 "verify rt failed: …" |
| `Auth.Refresh` | internal/handlers/auth.go:124-195 | a missing cookie gives 403 "bad refresh token" and other cookie errors 500 with their text, without calls; `NewToken` is called, with the Admin parameters, exactly when `Verify` accepts the cookie; `ErrUnknownType` gives 400 and other errors 500, with the error's text; success gives 200, the access token and the refresh cookie |
| `Auth.RefreshAndGateClassification` | internal/handlers/auth.go:139-155 | Refresh and the gate give the same status exactly for expiry and signature errors; for every other error the gate says 403 and Refresh 500 |
| `Auth.RefreshIgnoresPresentedToken` | internal/handlers/auth.go:157-194 | two accepted refresh tokens lead to the same `NewToken` call, status, body and cookie; Refresh neither revokes nor calls `CheckToken` |
| `Auth.ClearedRefreshCookie` | internal/handlers/auth.go:223-229 | the logout cookie is `refresh_token` at `/admin/auth`, empty, and expires one second before now |
| `Auth.Logout` | internal/handlers/auth.go:205-232 | a header without a space gives 401 with no call; otherwise the service's Logout gets the bearer token and the access lifetime; its error gives 500 with the error's text and no cookie; success gives 200 and the cleared cookie |
| `Auth.LogoutTtlIsAccessLifetime` | internal/handlers/auth.go:206 | the revocation time to live is `AccessTokenExp` minutes, non-negative, for any in-range configuration |
| `Auth.LogoutNeverVerifies` | internal/handlers/auth.go:205-221 | Logout makes no call but the service's Logout: the token is neither verified nor checked |
| `Auth.LogoutReplacesRefreshCookie` | internal/handlers/auth.go:223-229 | a successful logout's cookie has the same name and path as the one SignIn and Refresh set, so it replaces it with an empty, expired value |
| `Auth.RefreshLifetimeInRange` | internal/handlers/auth.go:178 | for up to 106751 days either way, the cookie lifetime is exactly days×24h |
| `Auth.RefreshLifetimeOverflow` | internal/handlers/auth.go:178 | from 106752 to 213503 days the int64 duration wraps negative, and the cookie expires before it is set |
| `Auth.RefreshLifetimeWrapsBack` | internal/handlers/auth.go:178 | at 213504 days the duration has wrapped back to a positive value under one hour |
| `Films.FirstFailedCheck` | internal/handlers/film.go:48-64 | the first failing check names the rejection: title (1..150 bytes), then description (≤1000 bytes), then rating (0..10); none when all pass |
| `Films.FilmOf` | internal/handlers/film.go:66-72 | the entity copies title, description, release date, rating and actors from the request and leaves the ID empty |
| `Films.CreateFilm` | internal/handlers/film.go:40-89 | a decode failure or failed check gives 400 with no call; `CreateFilm` is called, with the built entity, exactly when all checks pass; its error gives 500, success 201 "film is successfully created" |
| `Films.UpdateFilm` | internal/handlers/film.go:151-176 | any decodable film goes to `UpdateFilm` unchanged under the query id; its error gives 500, success 201; only a decode failure gives 400 |
| `Films.TitleLengthBoundaries` | internal/handlers/film.go:48-52 | titles of 0 and 151 bytes get "invalid name length"; 1 and 150 bytes reach the service |
| `Films.DescriptionLengthBoundaries` | internal/handlers/film.go:54-58 | a 1000-byte description is accepted, a 1001-byte one gets "invalid description length" |
| `Films.RatingBoundaries` | internal/handlers/film.go:60-64 | ratings 0 and 10 are accepted; anything below 0 or above 10 gets "invalid rating value" |
| `Films.ChecksRunInOrder` | internal/handlers/film.go:48-58 | a bad title is reported whatever the description and rating; a bad description whatever the rating |
| `Films.UpdateSkipsValidation` | internal/handlers/film.go:151-166 | every request that createFilm refuses on a check is, as a film, handed to `UpdateFilm` unchanged |

## Left out

- The token service, the JWT codec and the revocation store: `service.AuthService`, `service.NewToken` and the Redis token repository are not part of this model. Their calls are arbitrary functions, so HS256, claims, token kinds and expiry times are not modelled.
- `time.Now()` is the parameter `now`. Instants are unbounded integers of nanoseconds, so the overflow and monotonic-clock handling inside `time.Time.Add` is not modelled. Only the int64 `time.Duration` products are.
- JSON decoding is an input `Result` (decoded value or decode error). JSON encoding of the response body is the `Body` value, and its ignored encode error is not modelled.
- `http.Error` also appends a newline and sets content-type headers. `Body.ErrorText` holds the message without them.
- `r.Cookie` is an input `Result`. net/http returns only `ErrNoCookie` from it, which is not part of this model, so the 500 branch is kept as the handler writes it.
- `entities.Auth`, `entities.Token` and `config.Config` are not part of this model. Their fields are inferred from how the handlers use them.
- Logging (logrus and `log.Println`) is left out. `SignIn` logs the whole decoded credentials value (internal/handlers/auth.go:44). That it holds the password is inferred, since `entities.Auth` is not part of this model.
- `SingIn` and `NewToken` return a `Result`: a token pair or an error. Go also allows a nil token with a nil error, on which the handlers would panic reading `token.RT` (internal/handlers/auth.go:63, 181). The model takes a nil error to mean a non-nil token.
- The service calls are functions of their arguments only. In Go, `Verify`, `NewToken` and the others may also read the clock or other hidden state. So `Auth.RefreshIgnoresPresentedToken`, `Auth.GateIgnoresScheme` and `Auth.GateIgnoresTrailingFields` say "the same outcome" in the sense of "given the same answers from the service".
- `Rating` is a `real`. float64 details such as NaN passing both comparisons are not modelled.
- The routing table in internal/handlers/handlers.go is left out. As written, each route calls `VerifyToken` and discards the handler it returns, so no protected handler is ever served. The model states what the returned handler does.
- The other CRUD handlers (actors, users, film get/delete) only decode, delegate and encode. The repository and service layers are pass-throughs over SQL and uuid generation.
