/** The app's error taxonomy and the rate-limit record, used as plain data. */
module Errors {
  import opened Wrappers

  /**
   * `AppError`, plus two cases for errors that reach the same `catch` blocks without
   * being `AppError`s: a transport failure thrown by the URL session (`Transport`) and
   * Swift's `CancellationError` (`Cancelled`). Dates are integer seconds.
   */
  datatype AppError =
    | MissingToken
    | InvalidResponse
    | HttpError(code: int, body: string)
    | DecodingError
    | RateLimited(reset: Option<int>)
    | Keychain(status: int)
    | Transport(description: string)
    | Cancelled

  /** `RateLimitInfo`; `reset` is the reset instant in seconds since 1970. */
  datatype RateLimitInfo = RateLimitInfo(limit: int, remaining: int, reset: Option<int>)

  const NoRateLimitInfo := RateLimitInfo(0, 0, None)
}
