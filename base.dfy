/** Values shared by every part of the client: Go's 64-bit integers and
    nanosecond durations, optional values, and the (response, error) pair
    that every request returns. */
module Base {

  /** Go's `int` and `time.Duration` are both 64-bit signed integers. */
  type Int64 = x: int | -0x8000_0000_0000_0000 <= x < 0x8000_0000_0000_0000

  /** `time.Second`, in nanoseconds. */
  const Second: int := 1_000_000_000

  /** A Go pointer or interface that may be nil. */
  datatype Option<+T> = None | Some(value: T)

  datatype Result<+R, +E> = Success(value: R) | Failure(error: E)

  /** A Go `error` value; only its identity matters here. */
  datatype Error = Error(message: string)

  /** An `*http.Response` as far as this layer looks at it. */
  datatype Response = Response(statusCode: int, body: string)

  /** The `(*http.Response, error)` pair returned by every request. */
  datatype Reply = Reply(response: Option<Response>, err: Option<Error>)
}
