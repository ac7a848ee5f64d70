/**
 * `create_response`: the gateway response envelope, a fixed set of default
 * headers merged with optional caller headers, the status code and the body.
 * The body is kept as a structured value; its JSON text is not modelled.
 */
module Envelope {
  import opened Wrappers
  import opened Shaping

  /** The headers every response carries unless the caller overrides them. */
  const DefaultHeaders: map<string, string> := map[
    "Content-Type" := "application/json",
    "Access-Control-Allow-Origin" := "*",
    "Access-Control-Allow-Headers" := "Content-Type,X-Amz-Date,Authorization,X-Api-Key,X-Amz-Security-Token",
    "Access-Control-Allow-Methods" := "GET,OPTIONS"
  ]

  /** The two shapes of body the handler sends: a listing result, or an `error`/`message` pair. */
  datatype Body = ListingBody(result: ListResult) | ErrorBody(error: string, message: string)

  datatype ApiResponse = ApiResponse(statusCode: int, headers: map<string, string>, body: Body)

  /** The caller's headers, with a missing or empty mapping read as no headers at all. */
  function CustomHeaders(headers: Option<map<string, string>>): map<string, string>
  {
    headers.GetOr(map[])
  }

  /** The response `create_response` returns, as a value. */
  function Respond(statusCode: int, body: Body, headers: Option<map<string, string>>): (r: ApiResponse)
    ensures r.statusCode == statusCode && r.body == body
    ensures r.headers.Keys == DefaultHeaders.Keys + CustomHeaders(headers).Keys
    // The four defaults are always present ...
    ensures "Content-Type" in r.headers && "Access-Control-Allow-Origin" in r.headers
    ensures "Access-Control-Allow-Headers" in r.headers && "Access-Control-Allow-Methods" in r.headers
    // ... a caller header wins over a default of the same name ...
    ensures forall k :: k in CustomHeaders(headers) ==> r.headers[k] == CustomHeaders(headers)[k]
    // ... and a default the caller does not name keeps its value.
    ensures forall k :: k in DefaultHeaders && k !in CustomHeaders(headers) ==> r.headers[k] == DefaultHeaders[k]
    ensures headers.None? ==> r.headers == DefaultHeaders
  {
    ApiResponse(statusCode, DefaultHeaders + CustomHeaders(headers), body)
  }

  /**
   * `create_response` as the source runs it: start from the defaults and, when
   * the caller passed a non-empty header mapping, update them with it.
   */
  method CreateResponse(statusCode: int, body: Body, headers: Option<map<string, string>>)
    returns (response: ApiResponse)
    ensures response == Respond(statusCode, body, headers)
  {
    var defaultHeaders := DefaultHeaders;
    if headers.Some? && headers.value != map[] {
      defaultHeaders := defaultHeaders + headers.value;
    }
    response := ApiResponse(statusCode, defaultHeaders, body);
  }
}
