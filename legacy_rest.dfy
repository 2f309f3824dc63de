/**
 * What the two legacy REST classes (lib/rest/account_balance.rb and
 * lib/rest/email_validations.rb) share: the exceptions that reach their rescue
 * clauses, the requests they make through RestClient resources, the answers
 * those requests get, and the error symbols they record in `@error`.
 */
module LegacyRest {
  import opened Wrappers
  import opened RubyCore
  import opened Json

  /** The symbols `compute_error` stores in `@error`. */
  datatype ErrorSymbol =
    | BadRequest | Unauthorized | PaymentRequired | Forbidden | NotFound
    | NotAcceptable | Gone | TooManyRequest | InternalServerError

  /** An exception caught by `rescue => e`. */
  datatype LegacyError =
      /** A RestClient::Exception for a response received with this status: both `http_code` and `response.code` give it. */
    | HttpFailure(code: int)
      /** A RestClient::Exception built without a response, such as `RestClient::Exception.new(nil, 500)`: `http_code` is the code given (nil when none), `response` is nil. */
    | CodeOnly(given: Option<int>)
      /** Any other StandardError: a transport error, JSON::ParserError, or an error of the code itself. */
    | OtherFailure(error: RubyError)

  predicate IsRestClientException(e: LegacyError) {
    e.HttpFailure? || e.CodeOnly?
  }

  /** RestClient::Exception#http_code: the response's status when there is one, otherwise the code it was built with. */
  function HttpCode(e: LegacyError): (c: Option<int>)
    requires IsRestClientException(e)
    ensures e.HttpFailure? ==> c == Some(e.code)
  {
    match e
    case HttpFailure(code) => Some(code)
    case CodeOnly(given) => given
  }

  datatype LegacyVerb = GET | POST | DELETE

  /**
   * One request through a RestClient::Resource: the verb, the resource's URL, the
   * sub-resource key when the code indexes it (`resource[key]`), and the JSON body
   * when it posts one. How RestClient joins the key to the URL is not modelled.
   */
  datatype LegacyRequest = LegacyRequest(verb: LegacyVerb, resource: string, key: Option<Value>, body: Option<Value>)

  /** What a request yields: the response body, or the exception it raises. */
  datatype Reply = Body(text: string) | Raise(error: LegacyError)

  /** JSON.parse failing is a JSON::ParserError, which is not a RestClient exception. */
  const PARSE_ERROR: LegacyError := OtherFailure(ParserError("unexpected token"))
}
