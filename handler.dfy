/**
 * `lambda_handler`: normalise the request, make the one listing call, and map
 * its result, or whatever was raised, to a gateway response. The bucket name
 * from the environment, the storage service and the clock are parameters.
 */
module Handler {
  import opened Wrappers
  import opened Params
  import opened Shaping
  import opened Envelope

  /** A status code with the body to send under it. */
  datatype Reply = Reply(status: int, body: Body)

  /** The early answer of `lambda_handler` when `BUCKET_NAME` is unset or empty. */
  const NotConfiguredReply: Reply := Reply(500, ErrorBody("Internal server error", "Bucket name not configured"))

  /**
   * The `except` chain of `lambda_handler`. Only the `ValueError` branch copies
   * the exception's text into the body; every other branch answers with fixed
   * strings.
   */
  function Caught(e: Raised): (r: Reply)
    ensures r.body.ErrorBody?
    ensures r.status == 400 <==> e.ValueError?
    ensures r.status == 404 <==> e.ClientError? && e.code == "NoSuchBucket"
    ensures r.status == 403 <==> e.ClientError? && e.code == "AccessDenied"
    ensures r.status == 500 <==> !e.ValueError? && !(e.ClientError? && e.code in {"NoSuchBucket", "AccessDenied"})
    ensures e.ValueError? ==> r.body == ErrorBody("Invalid request", e.text)
    ensures e.ClientError? && e.code == "NoSuchBucket" ==>
              r.body == ErrorBody("Bucket not found", "The specified bucket does not exist")
    ensures e.ClientError? && e.code == "AccessDenied" ==>
              r.body == ErrorBody("Access denied", "Insufficient permissions to access the bucket")
    ensures e.ClientError? && e.code !in {"NoSuchBucket", "AccessDenied"} ==>
              r.body == ErrorBody("AWS service error", "An error occurred while accessing AWS services")
    ensures e.NoCredentialsError? ==> r.body == ErrorBody("Internal server error", "AWS credentials not configured")
    ensures e.OtherException? ==> r.body == ErrorBody("Internal server error", "An unexpected error occurred")
  {
    match e
    case ClientError(code, _) =>
      if code == "NoSuchBucket" then
        Reply(404, ErrorBody("Bucket not found", "The specified bucket does not exist"))
      else if code == "AccessDenied" then
        Reply(403, ErrorBody("Access denied", "Insufficient permissions to access the bucket"))
      else
        Reply(500, ErrorBody("AWS service error", "An error occurred while accessing AWS services"))
    case NoCredentialsError =>
      Reply(500, ErrorBody("Internal server error", "AWS credentials not configured"))
    case ValueError(text) =>
      Reply(400, ErrorBody("Invalid request", text))
    case OtherException(_) =>
      Reply(500, ErrorBody("Internal server error", "An unexpected error occurred"))
  }

  /** The response to a client error never depends on the backend's own message. */
  lemma ClientErrorMessageNotDisclosed(code: string, message1: string, message2: string)
    ensures Caught(ClientError(code, message1)) == Caught(ClientError(code, message2))
  {
  }

  /** What one invocation does: the response, and the arguments `list_bucket_objects` was called with, if it was. */
  datatype Invocation = Invocation(response: ApiResponse, listed: Option<ListCall>)

  /** The reply to a listing call's result. */
  function Answer(result: Result<ListResult, Raised>): Reply
  {
    match result
    case Ok(listing) => Reply(200, ListingBody(listing))
    case Err(e) => Caught(e)
  }

  /** `lambda_handler` as a function of the configured bucket, the event, the storage service and the clock. */
  function Handle(bucketEnv: Option<string>, event: Event, backend: ListRequest -> StorageOutcome, clock: string)
    : (r: Invocation)
    // The handler never adds headers of its own, and answers with one of five statuses.
    ensures r.response.headers == DefaultHeaders
    ensures r.response.statusCode in {200, 400, 403, 404, 500}
    // The listing is called exactly when normalisation succeeds, with the normalised arguments.
    ensures r.listed.Some? <==> Normalise(bucketEnv, event).Ready?
    ensures r.listed.Some? ==>
              var n := Normalise(bucketEnv, event);
              r.listed.value == ListCall(n.bucketName, n.prefix, n.maxKeys)
    // Without a bucket name: 500 before anything else happens.
    ensures !Configured(bucketEnv) ==>
              r.listed.None? && r.response.statusCode == 500
              && r.response.body == ErrorBody("Internal server error", "Bucket name not configured")
    // A `max_keys` that does not parse: 400 carrying the parse error's text, and no call.
    ensures Normalise(bucketEnv, event).InvalidMaxKeys? ==>
              r.listed.None? && r.response.statusCode == 400
              && r.response.body == ErrorBody("Invalid request", InvalidLiteralMessage(Normalise(bucketEnv, event).literal))
    // 200 exactly when the call returned a page, with that page shaped as the body.
    ensures r.response.statusCode == 200 <==> r.listed.Some? && backend(RequestFor(r.listed.value)).Listed?
    ensures r.response.statusCode == 200 ==>
              r.response.body == ListingBody(ShapePage(r.listed.value.bucketName, r.listed.value.prefix,
                                                       backend(RequestFor(r.listed.value)).page, clock))
    // A raised error is answered by the except chain.
    ensures r.listed.Some? && backend(RequestFor(r.listed.value)).Raising? ==>
              var c := Caught(backend(RequestFor(r.listed.value)).error);
              r.response.statusCode == c.status && r.response.body == c.body
  {
    match Normalise(bucketEnv, event)
    case NotConfigured =>
      Invocation(Respond(NotConfiguredReply.status, NotConfiguredReply.body, None), None)
    case InvalidMaxKeys(literal) =>
      var reply := Caught(ValueError(InvalidLiteralMessage(literal)));
      Invocation(Respond(reply.status, reply.body, None), None)
    case Ready(bucketName, prefix, maxKeys) =>
      var call := ListCall(bucketName, prefix, maxKeys);
      var reply := Answer(ListBucket(call, backend, clock));
      Invocation(Respond(reply.status, reply.body, None), Some(call))
  }

  /**
   * `lambda_handler` as the source runs it: early return without a bucket,
   * read the query parameters, parse and clamp `max_keys` in a local, call
   * `list_bucket_objects` and answer its result or error.
   */
  method LambdaHandler(bucketEnv: Option<string>, event: Event, backend: ListRequest -> StorageOutcome, clock: string)
    returns (response: ApiResponse, listed: Option<ListCall>)
    ensures Invocation(response, listed) == Handle(bucketEnv, event, backend, clock)
  {
    listed := None;
    if bucketEnv.None? || bucketEnv.value == "" {
      response := CreateResponse(500, ErrorBody("Internal server error", "Bucket name not configured"), None);
      return;
    }
    var bucketName := bucketEnv.value;
    var queryParams := if event.queryStringParameters.Some? then event.queryStringParameters.value else map[];
    var prefix := if "prefix" in queryParams then queryParams["prefix"] else "";
    var maxKeys := DefaultMaxKeys;
    if "max_keys" in queryParams {
      var parsed := ParseInt(queryParams["max_keys"]);
      if parsed.None? {
        var reply := Caught(ValueError(InvalidLiteralMessage(queryParams["max_keys"])));
        response := CreateResponse(reply.status, reply.body, None);
        return;
      }
      maxKeys := parsed.value;
    }
    if maxKeys > MaxKeysLimit {
      maxKeys := MaxKeysLimit;
    }
    listed := Some(ListCall(bucketName, prefix, maxKeys));
    var result := ListBucketObjects(bucketName, prefix, maxKeys, backend, clock);
    var reply := Answer(result);
    response := CreateResponse(reply.status, reply.body, None);
  }

  /** A request the handler rejects before listing gets the same answer whatever the storage service would do. */
  lemma RejectedRequestIgnoresBackend(bucketEnv: Option<string>, event: Event,
                                      backend1: ListRequest -> StorageOutcome, backend2: ListRequest -> StorageOutcome,
                                      clock: string)
    requires !Normalise(bucketEnv, event).Ready?
    ensures Handle(bucketEnv, event, backend1, clock) == Handle(bucketEnv, event, backend2, clock)
  {
  }

  /** The storage service is consulted on one request only: two services that agree on it give the same answer. */
  lemma BackendConsultedOnce(bucketEnv: Option<string>, event: Event,
                             backend1: ListRequest -> StorageOutcome, backend2: ListRequest -> StorageOutcome,
                             clock: string)
    requires Normalise(bucketEnv, event).Ready?
    requires var n := Normalise(bucketEnv, event);
      backend1(RequestFor(ListCall(n.bucketName, n.prefix, n.maxKeys))) ==
      backend2(RequestFor(ListCall(n.bucketName, n.prefix, n.maxKeys)))
    ensures Handle(bucketEnv, event, backend1, clock) == Handle(bucketEnv, event, backend2, clock)
  {
  }

  /**
   * With no query parameters the listing is called with the bucket, an empty
   * prefix and 100, and the storage request carries no `Prefix`.
   */
  lemma DefaultsWithoutQueryParameters(bucketName: string, backend: ListRequest -> StorageOutcome, clock: string)
    requires bucketName != ""
    ensures Handle(Some(bucketName), Event(None), backend, clock).listed == Some(ListCall(bucketName, "", 100))
    ensures RequestFor(ListCall(bucketName, "", 100)) == ListRequest(bucketName, 100, None)
  {
  }

  /** A `max_keys` of "2000" is clamped to 1000 before the call. */
  lemma LargeMaxKeysClamped(bucketName: string, backend: ListRequest -> StorageOutcome, clock: string)
    requires bucketName != ""
    ensures Handle(Some(bucketName), Event(Some(map["max_keys" := "2000"])), backend, clock).listed
            == Some(ListCall(bucketName, "", 1000))
  {
    ParseShowRoundTrip(2000);
    assert ShowInt(2000) == "2000";
  }

  /** A negative `max_keys` passes unchanged: the handler enforces no lower bound. */
  lemma NegativeMaxKeysPasses(bucketName: string, backend: ListRequest -> StorageOutcome, clock: string)
    requires bucketName != ""
    ensures Handle(Some(bucketName), Event(Some(map["max_keys" := "-5"])), backend, clock).listed
            == Some(ListCall(bucketName, "", -5))
  {
  }

  /** A `max_keys` of "abc" is answered with 400 and no call. */
  lemma UnparsableMaxKeysRejected(bucketName: string, backend: ListRequest -> StorageOutcome, clock: string)
    requires bucketName != ""
    ensures var r := Handle(Some(bucketName), Event(Some(map["max_keys" := "abc"])), backend, clock);
      r.listed.None? && r.response.statusCode == 400 && r.response.body.error == "Invalid request"
  {
  }

  /** A missing bucket name wins over an unparsable `max_keys`. */
  lemma BucketCheckedFirst(event: Event, backend: ListRequest -> StorageOutcome, clock: string)
    ensures var r := Handle(Some(""), event, backend, clock);
      r.listed.None? && r.response.statusCode == 500 && r.response.body.message == "Bucket name not configured"
    ensures Handle(None, event, backend, clock) == Handle(Some(""), event, backend, clock)
  {
  }

  /** An `AccessDenied` from the storage service is answered with 403 and its fixed error text. */
  lemma AccessDeniedIs403(bucketName: string, message: string, clock: string)
    requires bucketName != ""
    ensures var r := Handle(Some(bucketName), Event(None), _ => Raising(ClientError("AccessDenied", message)), clock);
      r.response.statusCode == 403 && r.response.body.error == "Access denied"
  {
  }

  /** A `NoSuchBucket` from the storage service is answered with 404 and its fixed error text. */
  lemma NoSuchBucketIs404(bucketName: string, message: string, clock: string)
    requires bucketName != ""
    ensures var r := Handle(Some(bucketName), Event(None), _ => Raising(ClientError("NoSuchBucket", message)), clock);
      r.response.statusCode == 404 && r.response.body.error == "Bucket not found"
  {
  }
}
