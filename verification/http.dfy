/**
 * What a call of the wrapped request function can produce: a response that
 * the HTTP layer has already accepted, or a raised exception.
 */
module Http {
  import opened Json

  /** A response: its status code and its decoded JSON body. */
  datatype Response = Response(status: int, body: Json)

  /**
   * The exception classes the wrapper names in its `except` tuples (a subclass,
   * such as a connect timeout, is represented by the named class that catches
   * it), and `Other` for every exception outside them.
   */
  datatype ExceptionClass =
    | ConnectionResetError
    | FatalAPIError
    | RetriableAPIError
    | Timeout
    | ConnectionError
    | ChunkedEncodingError
    | ContentDecodingError
    | Other(name: string)

  datatype Exception = Exception(cls: ExceptionClass, message: string)

  datatype Outcome = Returned(response: Response) | Raised(exception: Exception)

  /** The seven classes that both `except` clauses of the wrapper catch. */
  const RECOGNISED: set<ExceptionClass> := {
    ConnectionResetError, FatalAPIError, RetriableAPIError, Timeout,
    ConnectionError, ChunkedEncodingError, ContentDecodingError
  }

  /** The outcome is an exception that the wrapper catches. */
  predicate Caught(o: Outcome) {
    o.Raised? && o.exception.cls in RECOGNISED
  }
}
