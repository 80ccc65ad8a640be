/** The records that cross the HTTP boundary between the form, the API gateway
    and the two request handlers. JSON text is not modelled: a request body is
    the result of parsing it, a response body is the object before it is
    serialised. */
module Http {
  import opened Js

  type Headers = map<string, string>

  /** The two CORS headers every handler response carries. */
  const CorsHeaders: Headers :=
    map["Access-Control-Allow-Origin" := "*", "Access-Control-Allow-Headers" := "*"]

  /** `JSON.parse(event.body)` followed by destructuring: either it throws
      (missing body, malformed JSON, `null`) or it yields the two fields the
      handlers read, each possibly `undefined`. */
  datatype RequestBody =
    | Unparseable
    | Fields(phoneNumber: Maybe<string>, otp: Maybe<string>)

  /** An API gateway proxy event, reduced to its parsed body. */
  datatype Event = Event(body: RequestBody)

  /** The JSON object a handler serialises: always a message, and on the verify
      path a boolean status and possibly a signed URL. */
  datatype ResponseBody = ResponseBody(message: string, status: Maybe<bool>, signedURL: Maybe<string>)

  datatype Response = Response(statusCode: int, headers: Headers, body: ResponseBody)

  /** Why a handler's promise rejects instead of resolving to a response. */
  datatype Fault = BodyParseFailure | ProviderSendFailure

  datatype Outcome = Returned(response: Response) | Rejected(fault: Fault)

  /** One handler invocation: the provider calls it made, in order, and how it ended. */
  datatype Invocation<Call> = Invocation(calls: seq<Call>, outcome: Outcome)

  /** A handler response with the CORS headers and the given status code and body. */
  function Reply(statusCode: int, body: ResponseBody): (r: Response)
    ensures AllowsAnyOriginAndHeader(r)
    ensures r.statusCode == statusCode && r.body == body
  {
    Response(statusCode, CorsHeaders, body)
  }

  /** A body holding only a message, as the issue handler and the verify error path send. */
  function MessageOnly(message: string): (b: ResponseBody)
    ensures b.message == message && b.status.Undefined? && b.signedURL.Undefined?
  {
    ResponseBody(message, Undefined, Undefined)
  }

  /** Both CORS headers allow everything. */
  predicate AllowsAnyOriginAndHeader(r: Response) {
    "Access-Control-Allow-Origin" in r.headers && r.headers["Access-Control-Allow-Origin"] == "*" &&
    "Access-Control-Allow-Headers" in r.headers && r.headers["Access-Control-Allow-Headers"] == "*"
  }
}
