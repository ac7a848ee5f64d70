# Bucket listing function — a Dafny model

This project models the request handling of an HTTP function that lists the
contents of one object-storage bucket (`lambda/list_s3_contents.py`). A call
goes through four steps:

1. the handler checks the configured bucket name;
2. it reads the `prefix` and `max_keys` query parameters, with defaults `""`
   and 100, and clamps `max_keys` to at most 1000;
3. it makes one `list_objects_v2` call and shapes the page it returns into a
   result record;
4. it wraps that record, or the error that was raised, into a gateway
   response with fixed default headers.

Modules, one per component of the source file:

- `Wrappers`: `Option` and `Result`.
- `Params`: the parameter normalisation of `lambda_handler` (lines 33-48). It
  holds the decimal parse standing for Python's `int()`, the clamp, and
  `Normalise`, which decides between "not configured", "bad `max_keys`" and
  "ready to list".
- `Shaping`: `list_bucket_objects`. It builds the request arguments, strips
  quotes from the ETag, and shapes the page (`ShapePage`, specified as a
  function). `ListBucket` is the whole of `list_bucket_objects` as a
  function: one storage call, its error passed on or its page shaped.
  `CollectObjects` and `ListBucketObjects` are the loop and the procedure as
  the source runs them, proved equal to `ObjectInfos`/`SumSizes` and to
  `ListBucket`.
- `Envelope`: `create_response`. `Respond` is the specification of the header
  merge and the envelope; `CreateResponse` is the in-place `update` version.
- `Handler`: the `except` chain (`Caught`), the reply to a listing result
  (`Answer`: 200 with the shaped page, or `Caught` of the error), the whole
  handler as a function (`Handle`), the handler as a method
  (`LambdaHandler`) proved equal to it, and lemmas about the handler's
  behaviour.

Inputs of the model that the source reads from its surroundings:

- The `BUCKET_NAME` environment variable is an `Option<string>` parameter.
- The storage service is a parameter `backend: ListRequest -> StorageOutcome`.
  It returns a `Page` or raises one of `ClientError(code, message)`,
  `NoCredentialsError`, `ValueError(text)` or `OtherException(text)`.
- The clock is a parameter `clock`: the text `datetime.utcnow().isoformat()`
  would return.
- `LastModified` arrives already formatted as text.

`Handle` returns the response and the arguments `list_bucket_objects` was
called with, or `None` when it was not called. This is how the model accounts
for the calls the handler makes.

Behaviour of the code worth noting:

- The default `max_keys` is 100.
- `max_keys` has no lower bound: zero and negative values reach the storage
  call unchanged.
- Unrecognised storage errors get status 500.
- Exactly one page is fetched, and nothing is cut to `max_keys`.

## Model

| member | source | states |
|---|---|---|
| `Params.ParseInt` | lambda/list_s3_contents.py:43 | an optional sign followed by one or more decimal digits parses to its value; the empty string and anything else fail |
| `Params.ParseShowRoundTrip` | lambda/list_s3_contents.py:43 | every integer written in decimal parses back to itself, so no valid count is rejected |
| `Params.InvalidLiteralMessage` | lambda/list_s3_contents.py:43 | the message starts with the fixed `int()` prefix, which at least one and at most 200 characters of the literal's `repr` follow |
| `Params.ShortPlainLiteralQuotedWhole` | lambda/list_s3_contents.py:43 | a literal of at most 198 characters, none of them a quote, a backslash or non-printable, appears whole between single quotes |
| `Params.LongPlainLiteralCut` | lambda/list_s3_contents.py:43 | such a literal of 199 characters or more is cut after its first 199 characters, leaving no closing quote |
| `Params.ReprQuoteChoice` | lambda/list_s3_contents.py:43 | in the message the literal is quoted with `"` when it holds a `'` and no `"`, and with `'` otherwise |
| `Params.ClampMaxKeys` | lambda/list_s3_contents.py:46-48 | the result is at most 1000; values above 1000 become exactly 1000; all others, negative ones included, pass unchanged |
| `Params.Normalise` | lambda/list_s3_contents.py:33-48 | a missing or empty bucket name is reported whatever the parameters are; absent query parameters mean prefix `""` and `max_keys` 100; a `max_keys` that `ParseInt` cannot parse is rejected, and only then; a parsed one is clamped |
| `Shaping.RequestFor` | lambda/list_s3_contents.py:119-125 | the request carries the bucket and `MaxKeys`, and `Prefix` exactly when the prefix is non-empty |
| `Shaping.StripLeadingQuotesSpec` | lambda/list_s3_contents.py:143 | stripping leading quotes leaves a suffix that is preceded only by quotes and does not start with one |
| `Shaping.StripTrailingQuotesSpec` | lambda/list_s3_contents.py:143 | stripping trailing quotes leaves a prefix that is followed only by quotes and does not end with one |
| `Shaping.StripQuotesSpec` | lambda/list_s3_contents.py:143 | `strip('"')` leaves a contiguous stretch of the ETag, with only quotes around it, that neither starts nor ends with a quote |
| `Shaping.StripQuotedEtag` | lambda/list_s3_contents.py:143 | an ETag quoted once loses exactly its two quotes |
| `Shaping.StripQuotesIdempotent` | lambda/list_s3_contents.py:143 | stripping twice gives the same as stripping once |
| `Shaping.SumSizesAppend` | lambda/list_s3_contents.py:155 | adding one item's size to the running total gives the sum over the longer list |
| `Shaping.SumObjectSizesOfInfos` | lambda/list_s3_contents.py:139-155 | the sizes of the result's objects sum to the sum of the sizes of the listed items |
| `Shaping.PrefixStrings` | lambda/list_s3_contents.py:175-176 | one prefix string per `CommonPrefixes` item, in order |
| `Shaping.ShapePage` | lambda/list_s3_contents.py:131-176 | `objects` has one entry per `Contents` item, in order. Key, size and timestamp are copied; the ETag is stripped of quotes; `storage_class` defaults to `STANDARD`; `owner` is present iff the item has one. `object_count` is the number of entries and `total_size_bytes` the sum of sizes, both 0 without `Contents`. `prefix` echoes the input. `is_truncated` defaults to false. The continuation token is present iff the page is truncated, and common prefixes iff the page has them. |
| `Shaping.ShapedTotalMatchesObjects` | lambda/list_s3_contents.py:155-162 | `total_size_bytes` equals the sum of the sizes listed in `objects` |
| `Shaping.CollectObjects` | lambda/list_s3_contents.py:131-155 | the loop over `Contents` yields exactly the entries of `ShapePage` and the sum of sizes |
| `Shaping.ListBucketObjects` | lambda/list_s3_contents.py:117-182 | the procedure sends the request of `RequestFor`, re-raises the storage error unchanged, and otherwise returns the shaped page |
| `Envelope.Respond` | lambda/list_s3_contents.py:198-214 | status code and body pass through; the four default headers are always present; caller headers add keys or override defaults; defaults the caller does not name keep their values; the key set is the union |
| `Envelope.CreateResponse` | lambda/list_s3_contents.py:198-214 | updating the default headers in place yields the response of `Respond` |
| `Handler.Caught` | lambda/list_s3_contents.py:60-101 | the mapping is total. `ValueError` gives 400, and nothing else does; `NoSuchBucket` gives 404 and `AccessDenied` 403; every other client error, missing credentials and any other exception give 500. Each case has its fixed error and message text; only `ValueError` copies the exception's text. |
| `Handler.ClientErrorMessageNotDisclosed` | lambda/list_s3_contents.py:60-80 | the response to a client error does not depend on the backend's message |
| `Handler.Handle` | lambda/list_s3_contents.py:31-101 | the listing is called exactly when normalisation succeeds, with the normalised arguments. A missing bucket gives 500 "Bucket name not configured" and a bad `max_keys` gives 400 "Invalid request", both without a call. The status is 200 iff the call returned a page, whose shaped record is the body; a raised error is answered by `Caught`. The headers are the defaults and the status is one of 200, 400, 403, 404, 500. |
| `Handler.LambdaHandler` | lambda/list_s3_contents.py:31-101 | the handler as a sequence of early returns, local reassignments and calls computes exactly `Handle` |
| `Handler.RejectedRequestIgnoresBackend` | lambda/list_s3_contents.py:33-48 | a request rejected before listing gets the same answer whatever the storage service would do |
| `Handler.BackendConsultedOnce` | lambda/list_s3_contents.py:54 | two storage services that agree on the one request sent give the same answer |
| `Handler.DefaultsWithoutQueryParameters` | lambda/list_s3_contents.py:42-54 | without query parameters the listing is called with `(bucket, "", 100)` and the storage request has no `Prefix` |
| `Handler.LargeMaxKeysClamped` | lambda/test_function.py:124-145 | `max_keys` "2000" becomes a call with 1000 |
| `Handler.NegativeMaxKeysPasses` | lambda/list_s3_contents.py:43-48 | `max_keys` "-5" reaches the call unchanged |
| `Handler.UnparsableMaxKeysRejected` | lambda/list_s3_contents.py:89-94 | `max_keys` "abc" gives 400 "Invalid request" and no call |
| `Handler.BucketCheckedFirst` | lambda/list_s3_contents.py:33-39 | an empty or absent bucket name gives 500 "Bucket name not configured" and no call, whatever the query parameters are |
| `Handler.AccessDeniedIs403` | lambda/test_function.py:147-164 | an `AccessDenied` client error gives 403 "Access denied" |
| `Handler.NoSuchBucketIs404` | lambda/test_function.py:166-183 | a `NoSuchBucket` client error gives 404 "Bucket not found" |

## Left out

- The storage and identity SDK clients and `health_check`: these are network calls. The storage call is the `backend` parameter.
- Logging and the `LOG_LEVEL` setup: output only.
- Reading `os.environ`: the bucket name is a parameter.
- `json.dumps`: the body is a structured value, not its JSON text.
- `datetime.utcnow()` and `isoformat`: depend on the clock and the library. The timestamp and `LastModified` are opaque strings.
- `total_size_mb` and `format_file_size`: floating-point division and rounding.
- `Params.ParseInt`: covers only an optional sign followed by decimal digits. Python's `int()` also allows surrounding whitespace, underscores between digits and non-ASCII digits; that string syntax is outside the model. In the other direction, CPython 3.11 and later (and the 3.7-3.10 security releases) refuse a decimal string of more than 4300 digits with `ValueError`, so such a `max_keys` gets 400 there; the model parses it, and the `Normalise` clause "rejected exactly when the parse fails" holds relative to the modelled parse.
- `Params.Repr`: covers `repr` for characters up to U+00FF: the choice of quote, escaping of that quote and the backslash, `\t`, `\n`, `\r`, and `\xNN` for the non-printable Latin-1 characters. A character above U+00FF is written as itself. Python writes a non-printable one as `\uNNNN` or `\UNNNNNNNN`, and which ones are non-printable depends on the Unicode database.
- Header names are compared exactly, as Python dictionary keys are. No case folding.
- The `__main__` block and the test module: these need mocks and a runtime. The tests serve only as evidence for the lemmas above.
