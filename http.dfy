/**
 * What the handlers write to an `http.ResponseWriter`, the Go errors they
 * receive, and Go's 64-bit durations.
 */
module Http {
  import opened GoStrings

  // Status codes used by the handlers (net/http).
  const StatusOK := 200
  const StatusCreated := 201
  const StatusBadRequest := 400
  const StatusUnauthorized := 401
  const StatusForbidden := 403
  const StatusInternalServerError := 500

  datatype Option<T> = None | Some(value: T)
  datatype Result<T> = Ok(value: T) | Err(error: GoError)

  /** The sentinel errors the handlers test with `errors.Is`. */
  datatype Sentinel =
    | ErrTokenExpired          // service.ErrTokenExpired
    | ErrWrongLoginOrPassword  // entities.ErrWrongLoginOrPassword
    | ErrUnknownType           // service.ErrUnknownType
    | ErrNoCookie              // http.ErrNoCookie

  /**
   * A Go error as the handlers see it: the sentinels in its wrap chain
   * (what `errors.Is` answers) and the text `Error()` returns.
   */
  datatype GoError = GoError(wraps: set<Sentinel>, text: string)
  {
    predicate Is(target: Sentinel) { target in wraps }
  }

  // Go's int64 and time.Duration (nanoseconds, int64).
  const TwoTo63: int := 0x8000_0000_0000_0000
  type Int64 = x: int | -TwoTo63 <= x < TwoTo63

  const Second: Int64 := 1_000_000_000
  const Minute: Int64 := 60 * Second
  const Hour: Int64 := 60 * Minute

  /** Two's-complement wrap-around of Go's int64 arithmetic. */
  function Wrap64(x: int): (r: Int64)
    ensures (r - x) % (2 * TwoTo63) == 0
    ensures -TwoTo63 <= x < TwoTo63 ==> r == x
  {
    var m := x % (2 * TwoTo63);
    if m >= TwoTo63 then m - 2 * TwoTo63 else m
  }

  /** Go's `a * b` on int64 / time.Duration operands. */
  function Mul64(a: Int64, b: Int64): Int64
  {
    Wrap64(a * b)
  }

  /** An instant, in nanoseconds; the handlers' `time.Now()` is a parameter. */
  type Instant = int

  /** An `http.Cookie` as the handlers fill it. */
  datatype Cookie = Cookie(name: string, value: Bytes, path: string, expires: Instant)

  /** What a handler writes as the response body. */
  datatype Body =
    | NoBody
    | ErrorText(message: string)        // http.Error(w, message, code)
    | AccessTokenJson(access: Bytes)    // {"access_token": access}
    | MessageJson(message: string)      // {"message": message}

  /**
   * A handler's whole observable effect: the status written, the body, the
   * cookie set (if any) and, in order, the calls it made into its service.
   */
  datatype Response<Call> = Response(status: int, body: Body, cookie: Option<Cookie>, calls: seq<Call>)
}
