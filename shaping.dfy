/**
 * `list_bucket_objects`: the parameters of the one `list_objects_v2` call it
 * makes, and the shaping of the page that call returns into the result record
 * the handler sends back. The storage service itself is a parameter
 * (`backend`), a function from the request to its outcome.
 */
module Shaping {
  import opened Wrappers

  /** The owner of an object as the storage service reports it (`ID`, `DisplayName`, each possibly absent). */
  datatype Owner = Owner(id: Option<string>, displayName: Option<string>)

  /**
   * One item of a page's `Contents`. `lastModified` is the timestamp already
   * written out by `isoformat`; `storageClass` and `owner` may be absent.
   */
  datatype ContentEntry = ContentEntry(
    key: string,
    size: int,
    lastModified: string,
    etag: string,
    storageClass: Option<string>,
    owner: Option<Owner>)

  /** One `list_objects_v2` page; every top-level key may be absent. */
  datatype Page = Page(
    contents: Option<seq<ContentEntry>>,
    isTruncated: Option<bool>,
    nextContinuationToken: Option<string>,
    commonPrefixes: Option<seq<CommonPrefix>>)

  /** One item of a page's `CommonPrefixes`. */
  datatype CommonPrefix = CommonPrefix(prefix: string)

  /** The exceptions the handler distinguishes, wherever in its `try` block they are raised. */
  datatype Raised =
    | ClientError(code: string, message: string)
    | NoCredentialsError
    | ValueError(text: string)
    | OtherException(text: string)

  /** What the storage call does: return a page or raise. */
  datatype StorageOutcome = Listed(page: Page) | Raising(error: Raised)

  /** The keyword arguments of `list_objects_v2`; `prefix` is `None` when the key is not sent. */
  datatype ListRequest = ListRequest(bucket: string, maxKeys: int, prefix: Option<string>)

  /** The arguments `list_bucket_objects` is called with. */
  datatype ListCall = ListCall(bucketName: string, prefix: string, maxKeys: int)

  /** One entry of the result's `objects`. */
  datatype ObjectInfo = ObjectInfo(
    key: string,
    size: int,
    lastModified: string,
    etag: string,
    storageClass: string,
    owner: Option<Owner>)

  /**
   * The result record. `nextContinuationToken` is `None` when the key is
   * left out and `Some(token)` when it is present, `token` being `None` for a
   * JSON `null`. `total_size_mb` is not part of the model.
   */
  datatype ListResult = ListResult(
    bucketName: string,
    prefix: string,
    objectCount: int,
    totalSizeBytes: int,
    isTruncated: bool,
    objects: seq<ObjectInfo>,
    timestamp: string,
    nextContinuationToken: Option<Option<string>>,
    commonPrefixes: Option<seq<string>>)

  /** The `list_params` of `list_bucket_objects`; `Prefix` is sent only when the prefix is non-empty. */
  function RequestFor(call: ListCall): (req: ListRequest)
    ensures req.bucket == call.bucketName && req.maxKeys == call.maxKeys
    ensures req.prefix.Some? <==> call.prefix != ""
    ensures req.prefix.Some? ==> req.prefix.value == call.prefix
  {
    if call.prefix != "" then
      ListRequest(call.bucketName, call.maxKeys, Some(call.prefix))
    else
      ListRequest(call.bucketName, call.maxKeys, None)
  }

  predicate StartsWithQuote(s: string) {
    |s| > 0 && s[0] == '"'
  }

  predicate EndsWithQuote(s: string) {
    |s| > 0 && s[|s| - 1] == '"'
  }

  /** Removes every leading `"`. */
  function StripLeadingQuotes(s: string): string
  {
    if StartsWithQuote(s) then StripLeadingQuotes(s[1..]) else s
  }

  /** Removes every trailing `"`. */
  function StripTrailingQuotes(s: string): string
  {
    if EndsWithQuote(s) then StripTrailingQuotes(s[..|s| - 1]) else s
  }

  /** Python's `s.strip('"')`: leading quotes first, then trailing ones. */
  function StripQuotes(s: string): string
  {
    StripTrailingQuotes(StripLeadingQuotes(s))
  }

  /** What is left after the leading quotes go is a suffix preceded only by quotes. */
  lemma {:induction false} StripLeadingQuotesSpec(s: string)
    ensures var r := StripLeadingQuotes(s);
      && |r| <= |s| && r == s[|s| - |r|..]
      && (forall k :: 0 <= k < |s| - |r| ==> s[k] == '"')
      && !StartsWithQuote(r)
  {
    if StartsWithQuote(s) {
      StripLeadingQuotesSpec(s[1..]);
    }
  }

  /** What is left after the trailing quotes go is a prefix followed only by quotes. */
  lemma {:induction false} StripTrailingQuotesSpec(s: string)
    ensures var r := StripTrailingQuotes(s);
      && |r| <= |s| && r == s[..|r|]
      && (forall k :: |r| <= k < |s| ==> s[k] == '"')
      && !EndsWithQuote(r)
  {
    if EndsWithQuote(s) {
      StripTrailingQuotesSpec(s[..|s| - 1]);
    }
  }

  /**
   * What the strip leaves: a stretch of the ETag with only quotes before and
   * after it, that neither starts nor ends with a quote.
   */
  lemma StripQuotesSpec(s: string)
    ensures var r := StripQuotes(s);
      var i := |s| - |StripLeadingQuotes(s)|;
      && 0 <= i <= i + |r| <= |s| && r == s[i..i + |r|]
      && (forall k :: 0 <= k < i ==> s[k] == '"')
      && (forall k :: i + |r| <= k < |s| ==> s[k] == '"')
      && !StartsWithQuote(r) && !EndsWithQuote(r)
  {
    var l := StripLeadingQuotes(s);
    StripLeadingQuotesSpec(s);
    var r := StripTrailingQuotes(l);
    StripTrailingQuotesSpec(l);
    var i := |s| - |l|;
    assert r == s[i..i + |r|];
    forall k | i + |r| <= k < |s|
      ensures s[k] == '"'
    {
      assert s[k] == l[k - i];
    }
    if |r| > 0 {
      assert r[0] == l[0];
    }
  }

  /** An ETag quoted once, as the storage service writes it, loses exactly its two quotes. */
  lemma {:induction false} StripQuotedEtag(x: string)
    requires !StartsWithQuote(x) && !EndsWithQuote(x)
    ensures StripQuotes("\"" + x + "\"") == x
  {
    var q := "\"" + x + "\"";
    assert q[1..] == x + "\"";
    var l := StripLeadingQuotes(q);
    assert l == StripLeadingQuotes(x + "\"");
    if x == [] {
      assert x + "\"" == "\"";
      assert StripLeadingQuotes("\"") == "";
    } else {
      assert (x + "\"")[0] == x[0];
      assert l == x + "\"";
      assert l[..|l| - 1] == x;
      assert StripTrailingQuotes(l) == StripTrailingQuotes(x);
    }
  }

  /** Stripping twice is stripping once. */
  lemma StripQuotesIdempotent(s: string)
    ensures StripQuotes(StripQuotes(s)) == StripQuotes(s)
  {
    StripQuotesSpec(s);
  }

  /** One entry of `objects`: the `object_info` built from one `Contents` item. */
  function ObjectInfoOf(e: ContentEntry): ObjectInfo
  {
    ObjectInfo(e.key, e.size, e.lastModified, StripQuotes(e.etag), e.storageClass.GetOr("STANDARD"), e.owner)
  }

  /** `objects` for a whole `Contents` list: one entry per item, in the same order. */
  function ObjectInfos(cs: seq<ContentEntry>): (os: seq<ObjectInfo>)
  {
    seq(|cs|, i requires 0 <= i < |cs| => ObjectInfoOf(cs[i]))
  }

  /** The sum of the sizes of the `Contents` items. */
  function SumSizes(cs: seq<ContentEntry>): int
  {
    if cs == [] then 0 else cs[0].size + SumSizes(cs[1..])
  }

  /** The sum of the sizes of the result's `objects`. */
  function SumObjectSizes(os: seq<ObjectInfo>): int
  {
    if os == [] then 0 else os[0].size + SumObjectSizes(os[1..])
  }

  lemma {:induction false} SumSizesAppend(cs: seq<ContentEntry>, e: ContentEntry)
    ensures SumSizes(cs + [e]) == SumSizes(cs) + e.size
  {
    if cs == [] {
      assert [] + [e] == [e];
    } else {
      assert (cs + [e])[1..] == cs[1..] + [e];
      SumSizesAppend(cs[1..], e);
    }
  }

  /** Sizes are copied one for one, so the two sums agree. */
  lemma {:induction false} SumObjectSizesOfInfos(cs: seq<ContentEntry>)
    ensures SumObjectSizes(ObjectInfos(cs)) == SumSizes(cs)
  {
    if cs != [] {
      assert ObjectInfos(cs)[1..] == ObjectInfos(cs[1..]);
      SumObjectSizesOfInfos(cs[1..]);
    }
  }

  /** The `common_prefixes` list: the `Prefix` of each `CommonPrefixes` item. */
  function PrefixStrings(cps: seq<CommonPrefix>): (ps: seq<string>)
    ensures |ps| == |cps| && forall i :: 0 <= i < |cps| ==> ps[i] == cps[i].prefix
  {
    seq(|cps|, i requires 0 <= i < |cps| => cps[i].prefix)
  }

  /** The `result` record `list_bucket_objects` builds from one page; `clock` is what `utcnow().isoformat()` returned. */
  function ShapePage(bucketName: string, prefix: string, page: Page, clock: string): (r: ListResult)
    ensures r.bucketName == bucketName && r.prefix == prefix && r.timestamp == clock + "Z"
    // One entry per `Contents` item, in the same order, key, size and timestamp copied.
    ensures |r.objects| == if page.contents.Some? then |page.contents.value| else 0
    ensures page.contents.Some? ==> forall i :: 0 <= i < |r.objects| ==>
              var e := page.contents.value[i];
              && r.objects[i].key == e.key && r.objects[i].size == e.size
              && r.objects[i].lastModified == e.lastModified
              && r.objects[i].etag == StripQuotes(e.etag)
              && r.objects[i].storageClass == (if e.storageClass.Some? then e.storageClass.value else "STANDARD")
              // `owner` is present iff the item has one, and then copied.
              && r.objects[i].owner == e.owner
    ensures r.objectCount == |r.objects|
    ensures r.totalSizeBytes == if page.contents.Some? then SumSizes(page.contents.value) else 0
    ensures page.contents.None? ==> r.objects == [] && r.objectCount == 0 && r.totalSizeBytes == 0
    // `is_truncated` defaults to false; the token is added exactly when the page is truncated.
    ensures r.isTruncated <==> page.isTruncated == Some(true)
    ensures r.nextContinuationToken.Some? <==> r.isTruncated
    ensures r.nextContinuationToken.Some? ==> r.nextContinuationToken.value == page.nextContinuationToken
    ensures r.commonPrefixes.Some? <==> page.commonPrefixes.Some?
    ensures r.commonPrefixes.Some? ==> r.commonPrefixes.value == PrefixStrings(page.commonPrefixes.value)
  {
    var cs := page.contents.GetOr([]);
    ListResult(
      bucketName, prefix, |cs|, SumSizes(cs), page.isTruncated.GetOr(false), ObjectInfos(cs), clock + "Z",
      if page.isTruncated == Some(true) then Some(page.nextContinuationToken) else None,
      if page.commonPrefixes.Some? then Some(PrefixStrings(page.commonPrefixes.value)) else None)
  }

  /** `total_size_bytes` is the sum of the sizes listed in `objects`. */
  lemma ShapedTotalMatchesObjects(bucketName: string, prefix: string, page: Page, clock: string)
    ensures var r := ShapePage(bucketName, prefix, page, clock);
      r.totalSizeBytes == SumObjectSizes(r.objects)
  {
    SumObjectSizesOfInfos(page.contents.GetOr([]));
  }

  /** `list_bucket_objects` as a function: one storage call, its error re-raised or its page shaped. */
  function ListBucket(call: ListCall, backend: ListRequest -> StorageOutcome, clock: string): Result<ListResult, Raised>
  {
    match backend(RequestFor(call))
    case Raising(e) => Err(e)
    case Listed(page) => Ok(ShapePage(call.bucketName, call.prefix, page, clock))
  }

  /**
   * The `for obj in response['Contents']` loop of `list_bucket_objects`: walk
   * `Contents` in order, appending one entry to `objects` and adding its
   * size to the total for each item.
   */
  method CollectObjects(contents: seq<ContentEntry>) returns (objects: seq<ObjectInfo>, totalSize: int)
    ensures objects == ObjectInfos(contents)
    ensures totalSize == SumSizes(contents)
  {
    objects, totalSize := [], 0;
    for i := 0 to |contents|
      invariant |objects| == i
      invariant forall k :: 0 <= k < i ==> objects[k] == ObjectInfoOf(contents[k])
      invariant totalSize == SumSizes(contents[..i])
    {
      var obj := contents[i];
      var objectInfo := ObjectInfo(obj.key, obj.size, obj.lastModified, StripQuotes(obj.etag),
                                   obj.storageClass.GetOr("STANDARD"), None);
      if obj.owner.Some? {
        objectInfo := objectInfo.(owner := Some(Owner(obj.owner.value.id, obj.owner.value.displayName)));
      }
      objects := objects + [objectInfo];
      assert contents[..i + 1] == contents[..i] + [obj];
      SumSizesAppend(contents[..i], obj);
      totalSize := totalSize + obj.size;
    }
    assert contents[..|contents|] == contents;
  }

  /**
   * `list_bucket_objects` as the source runs it: build the request, make the
   * call, collect the objects, then add the optional keys.
   */
  method ListBucketObjects(bucketName: string, prefix: string, maxKeys: int,
                           backend: ListRequest -> StorageOutcome, clock: string)
    returns (r: Result<ListResult, Raised>)
    ensures r == ListBucket(ListCall(bucketName, prefix, maxKeys), backend, clock)
  {
    var listParams := ListRequest(bucketName, maxKeys, None);
    if prefix != "" {
      listParams := listParams.(prefix := Some(prefix));
    }
    var response := backend(listParams);
    if response.Raising? {
      return Err(response.error);
    }
    var page := response.page;
    var objects: seq<ObjectInfo> := [];
    var totalSize := 0;
    if page.contents.Some? {
      objects, totalSize := CollectObjects(page.contents.value);
    }
    var result := ListResult(bucketName, prefix, |objects|, totalSize, page.isTruncated.GetOr(false),
                             objects, clock + "Z", None, None);
    if page.isTruncated == Some(true) {
      result := result.(nextContinuationToken := Some(page.nextContinuationToken));
    }
    if page.commonPrefixes.Some? {
      result := result.(commonPrefixes := Some(PrefixStrings(page.commonPrefixes.value)));
    }
    r := Ok(result);
  }
}
