/** The JavaScript error objects the source inspects, reduced to the fields it reads. */
module Errors {
  import opened Wrappers

  /** `error.code`: absent, a string code (ethers) or a numeric code (wallet RPC). */
  datatype ErrorCode = NoCode | Named(text: string) | Numeric(number: int)

  /**
   * `error.response` of an HTTP client error. `retryAfter` is the
   * `retry-after` header read as whole seconds; `None` when the header is absent.
   */
  datatype HttpResponse = HttpResponse(status: int, retryAfter: Option<nat>)

  /**
   * A thrown value. An absent `message` or `reason` is the empty string: the
   * source only ever tests them for truthiness or substrings, where "" and
   * `undefined` behave alike.
   */
  datatype JsError = JsError(
    name: string,
    message: string,
    code: ErrorCode,
    reason: string,
    response: Option<HttpResponse>)

  /** `new Error(message)`. */
  function PlainError(message: string): JsError {
    JsError("Error", message, NoCode, "", None)
  }
}
