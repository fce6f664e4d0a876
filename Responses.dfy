/** `AbstractService::getResponseText`: from whatever a request produced to the body text. */
module Responses {
  import opened Wrappers
  import opened Errors

  /** The kinds of value `getResponseText` is handed. */
  datatype Input =
    | Settlement(reason: Option<Input>, value: Option<Input>)  // a settled promise's array
    | GuzzleResponse(body: string)                             // a Guzzle `Response`
    | HttpClientError(exception: HttpClientException)
    | OtherValue                                               // anything else

  /** A settlement array is replaced by its `reason`, else by its `value`; this happens once. */
  function Unwrap(r: Input): (u: Input)
    ensures r.Settlement? && r.reason.Some? ==> u == r.reason.value
    ensures r.Settlement? && r.reason.None? && r.value.Some? ==> u == r.value.value
    ensures !r.Settlement? ==> u == r
  {
    if r.Settlement? then
      if r.reason.Some? then r.reason.value
      else if r.value.Some? then r.value.value
      else r
    else r
  }

  /** The body text, or the exception `getResponseText` throws. */
  function GetResponseText(r: Input): (t: Result<string, ServiceError>)
    ensures r.GuzzleResponse? ==> t == Success(r.body)
    ensures r.OtherValue? ==> t == Failure(ResponseError("Unknown response type"))
    ensures r.HttpClientError? ==>
      var e := r.exception;
      if e.hasGetResponse && e.response.Some? && e.response.value.ResponseBody?
      then t == Success(e.response.value.body)
      else t == Failure(HttpClient(e))
  {
    match Unwrap(r)
    case GuzzleResponse(body) => Success(body)
    case HttpClientError(e) =>
      // without getResponse() the "response" is the exception itself, an instance of its own class
      if !e.hasGetResponse || e.response.None? || e.response.value.SameException? then
        Failure(HttpClient(e))
      else
        Success(e.response.value.body)
    case _ => Failure(ResponseError("Unknown response type"))
  }

  /** In a settlement array `reason` wins over `value`; a nested array is an unknown type. */
  lemma SettlementPrecedence(r: Input)
    requires r.Settlement?
    ensures r.reason.Some? && !r.reason.value.Settlement? ==> GetResponseText(r) == GetResponseText(r.reason.value)
    ensures r.reason.None? && r.value.Some? && !r.value.value.Settlement? ==> GetResponseText(r) == GetResponseText(r.value.value)
    ensures Unwrap(r).Settlement? ==> GetResponseText(r) == Failure(ResponseError("Unknown response type"))
  {
  }

  /** Nothing is invented: a text is the body of a response found in the input, and an
      exception is either the input's own HttpClientException or "Unknown response type". */
  lemma ResponseTextProvenance(r: Input)
    ensures GetResponseText(r).Success? ==>
      var u := Unwrap(r);
      (u.GuzzleResponse? && GetResponseText(r).value == u.body) ||
      (u.HttpClientError? && u.exception.response == Some(ResponseBody(GetResponseText(r).value)))
    ensures GetResponseText(r).Failure? ==>
      GetResponseText(r).error == ResponseError("Unknown response type") ||
      (Unwrap(r).HttpClientError? && GetResponseText(r).error == HttpClient(Unwrap(r).exception))
  {
  }
}
