/** The exceptions the service base class raises, as values. */
module Errors {
  import opened PhpValues

  /** One `{description, message, code}` entry of a CifException. `description` and
      `message` hold whatever PHP value the classifier stored (a string, a raw decoded
      value, or null). */
  datatype ErrorRecord = ErrorRecord(description: Json, message: Json, code: int)

  /** What an HttpClientException's `getResponse()` hands back, when it has one. */
  datatype InnerResponse =
    | ResponseBody(body: string)  // a response message with this body
    | SameException               // an object of the exception's own class

  /** An HttpClientException: `hasGetResponse` says whether the class offers
      `getResponse()`, `response` what that returns (None for null). */
  datatype HttpClientException =
    HttpClientException(message: string, hasGetResponse: bool, response: Wrappers.Option<InnerResponse>)

  datatype ServiceError =
    | InvalidConfiguration(message: string)  // InvalidConfigurationException
    | CifDown(faultText: Json)               // CifDownException, with its message
    | Cif(errors: seq<ErrorRecord>)          // CifException
    | ResponseError(message: string)         // ResponseException
    | HttpClient(exception: HttpClientException)  // an HttpClientException rethrown unchanged
    | InvalidMethod(message: string)         // InvalidMethodException
    | StringConversion                       // an object cannot be converted to string (PHP 7 fatal error, PHP 8 Error)
}
