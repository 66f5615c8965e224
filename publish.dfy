/**
 * What `Execute` sends out once the streams are filtered: one upload request per
 * included stream with a non-empty name (key, Content-MD5, Cache-Control and for
 * HTML a Content-Type), the invalidation path "/" + key for each of them, and at
 * most one invalidation request.
 */
module Publish {
  import opened Wrappers
  import opened Text
  import opened Streams

  datatype Headers = Headers(ContentMD5: string, CacheControl: string, ContentType: Option<string>)

  /** A `TransferUtilityUploadRequest` as `Execute` fills it in. */
  datatype UploadRequest = UploadRequest(BucketName: string, Key: string, InputStream: PvcStream, Headers: Headers)

  /** The plugin's upload settings: the bucket and the two max-age values as text. */
  datatype Settings = Settings(bucketName: string, maxAge: string, htmlMaxAge: string)

  datatype Paths = Paths(Quantity: int, Items: seq<string>)
  datatype InvalidationBatch = InvalidationBatch(CallerReference: string, Paths: Paths)
  datatype CreateInvalidationRequest = CreateInvalidationRequest(DistributionId: string, InvalidationBatch: InvalidationBatch)

  /** What CloudFront answers to `CreateInvalidation`: a created invalidation, the
      throttling error, any other CloudFront error, or an exception that is not a
      CloudFront error at all (which no `catch` clause of `Execute` handles). */
  datatype InvalidationResponse =
    | Created(Id: string, Status: string)
    | TooManyInvalidationsInProgress
    | CloudFrontError(message: string)
    | OtherException(message: string)

  /** Which of the console branches of the invalidation step ran. */
  datatype InvalidationReport =
    | Invalidated(Id: string, Status: string)
    | Throttled
    | InvalidationFailed(message: string)
    | NoFilesChanged

  /** The headers for a stream with the given tags: HTML gets the HTML max-age and
      an explicit text/html type, anything else the default max-age and no type. */
  function HeadersFor(tags: seq<string>, contentMD5: string, settings: Settings): Headers {
    if ".html" in tags then Headers(contentMD5, "max-age=" + settings.htmlMaxAge, Some("text/html"))
    else Headers(contentMD5, "max-age=" + settings.maxAge, None)
  }

  /** The upload request for one stream.  `keyMD5Sums[key]` always finds the key for
      a filtered stream (Diff.IncludedKeyHasDigest); the empty default is never used. */
  function UploadFor(stream: PvcStream, md5Sums: map<string, string>, settings: Settings): UploadRequest {
    var key := StreamNameToKey(stream.StreamName);
    UploadRequest(settings.bucketName, key, stream,
      HeadersFor(stream.Tags, if key in md5Sums then md5Sums[key] else "", settings))
  }

  /** The upload requests of the upload loop, one per stream with a non-empty name. */
  function Plan(streams: seq<PvcStream>, md5Sums: map<string, string>, settings: Settings): seq<UploadRequest> {
    if streams == [] then []
    else
      var last := streams[|streams| - 1];
      Plan(streams[..|streams| - 1], md5Sums, settings)
        + (if |last.StreamName| == 0 then [] else [UploadFor(last, md5Sums, settings)])
  }

  /** The streams with a non-empty name, in order: the reference the plan is checked against. */
  function Named(streams: seq<PvcStream>): seq<PvcStream> {
    if streams == [] then []
    else (if |streams[0].StreamName| > 0 then [streams[0]] else []) + Named(streams[1..])
  }

  /** `"/" + key` for each upload, in order. */
  function InvalidationPaths(plan: seq<UploadRequest>): seq<string> {
    seq(|plan|, j requires 0 <= j < |plan| => "/" + plan[j].Key)
  }

  /** The single invalidation request: the batch carries the paths and their count. */
  function InvalidationRequestFor(distributionId: string, callerReference: string, paths: seq<string>): CreateInvalidationRequest {
    CreateInvalidationRequest(distributionId, InvalidationBatch(callerReference, Paths(|paths|, paths)))
  }

  lemma PathsStep(plan: seq<UploadRequest>, request: UploadRequest)
    ensures InvalidationPaths(plan + [request]) == InvalidationPaths(plan) + ["/" + request.Key]
  {
  }

  /** The requests `Upload` is called with when the keys in `failing` make it
      throw: all of them up to and including the first that throws. */
  datatype UploadRun = UploadRun(attempted: seq<UploadRequest>, failedKey: Option<string>)

  function RunUploads(plan: seq<UploadRequest>, failing: set<string>): UploadRun {
    if plan == [] then UploadRun([], None)
    else if plan[0].Key in failing then UploadRun([plan[0]], Some(plan[0].Key))
    else
      var rest := RunUploads(plan[1..], failing);
      UploadRun([plan[0]] + rest.attempted, rest.failedKey)
  }

  predicate UploadsSucceed(plan: seq<UploadRequest>, failing: set<string>) {
    forall j :: 0 <= j < |plan| ==> plan[j].Key !in failing
  }

  /** The try/catch around `CreateInvalidation`: a created invalidation and the two
      caught CloudFront errors become a report; any other exception escapes (None). */
  function ReportFor(response: InvalidationResponse): Option<InvalidationReport> {
    match response
    case Created(id, status) => Some(Invalidated(id, status))
    case TooManyInvalidationsInProgress => Some(Throttled)
    case CloudFrontError(message) => Some(InvalidationFailed(message))
    case OtherException(_) => None
  }

  lemma {:induction false} NamedAppend(a: seq<PvcStream>, b: seq<PvcStream>)
    ensures Named(a + b) == Named(a) + Named(b)
  {
    if a != [] {
      NamedAppend(a[1..], b);
      assert (a + b)[1..] == a[1..] + b;
    } else {
      assert a + b == b;
    }
  }

  /** The plan is exactly one request per named stream, in the same order. */
  lemma {:induction false} PlanFollowsNamed(streams: seq<PvcStream>, md5Sums: map<string, string>, settings: Settings)
    ensures |Plan(streams, md5Sums, settings)| == |Named(streams)|
    ensures forall j :: 0 <= j < |Named(streams)| ==>
      Plan(streams, md5Sums, settings)[j] == UploadFor(Named(streams)[j], md5Sums, settings)
  {
    if streams != [] {
      var n := |streams| - 1;
      PlanFollowsNamed(streams[..n], md5Sums, settings);
      assert streams == streams[..n] + [streams[n]];
      NamedAppend(streams[..n], [streams[n]]);
    }
  }

  /** The invalidation paths are "/" + key of each named stream, in order. */
  lemma PathsOfPlan(streams: seq<PvcStream>, md5Sums: map<string, string>, settings: Settings)
    ensures InvalidationPaths(Plan(streams, md5Sums, settings))
         == seq(|Named(streams)|, j requires 0 <= j < |Named(streams)| => "/" + StreamNameToKey(Named(streams)[j].StreamName))
  {
    PlanFollowsNamed(streams, md5Sums, settings);
  }

  /** The named streams are the streams with a non-empty name. */
  lemma {:induction false} NamedMembers(streams: seq<PvcStream>)
    ensures forall s :: s in Named(streams) <==> s in streams && |s.StreamName| > 0
  {
    if streams != [] {
      NamedMembers(streams[1..]);
      assert streams == [streams[0]] + streams[1..];
    }
  }

  /** Each planned upload is for a named stream of the list, under the stream's
      key, in the plugin's bucket, with the Content-MD5 recorded for the key and the
      cache headers its tags call for. */
  lemma PlanRequests(streams: seq<PvcStream>, md5Sums: map<string, string>, settings: Settings)
    ensures forall r :: r in Plan(streams, md5Sums, settings) ==>
      && r.InputStream in streams && |r.InputStream.StreamName| > 0
      && r.Key == StreamNameToKey(r.InputStream.StreamName) && '\\' !in r.Key
      && r.BucketName == settings.bucketName
      && (r.Key in md5Sums ==> r.Headers.ContentMD5 == md5Sums[r.Key])
      && (".html" in r.InputStream.Tags ==>
            r.Headers.CacheControl == "max-age=" + settings.htmlMaxAge && r.Headers.ContentType == Some("text/html"))
      && (".html" !in r.InputStream.Tags ==>
            r.Headers.CacheControl == "max-age=" + settings.maxAge && r.Headers.ContentType == None)
  {
    PlanFollowsNamed(streams, md5Sums, settings);
    NamedMembers(streams);
    forall r | r in Plan(streams, md5Sums, settings)
      ensures '\\' !in r.Key && r.InputStream in Named(streams)
    {
      var j :| 0 <= j < |Plan(streams, md5Sums, settings)| && Plan(streams, md5Sums, settings)[j] == r;
      KeyHasNoBackslash(r.InputStream.StreamName);
    }
  }

  lemma {:induction false} PlanAppend(a: seq<PvcStream>, b: seq<PvcStream>, md5Sums: map<string, string>, settings: Settings)
    ensures Plan(a + b, md5Sums, settings) == Plan(a, md5Sums, settings) + Plan(b, md5Sums, settings)
    decreases |b|
  {
    if b == [] {
      assert a + b == a;
    } else {
      var n := |b| - 1;
      PlanAppend(a, b[..n], md5Sums, settings);
      assert (a + b)[..|a + b| - 1] == a + b[..n];
    }
  }

  /** One more stream: the plan grows by its request when the stream has a name. */
  lemma PlanStep(streams: seq<PvcStream>, i: nat, md5Sums: map<string, string>, settings: Settings)
    requires i < |streams|
    ensures Plan(streams[..i + 1], md5Sums, settings)
         == Plan(streams[..i], md5Sums, settings)
            + (if |streams[i].StreamName| == 0 then [] else [UploadFor(streams[i], md5Sums, settings)])
  {
    assert streams[..i + 1][..i] == streams[..i];
  }

  /** The first upload that throws ends the run: what was attempted is the plan up
      to and including it. */
  lemma FirstFailureEndsRun(streams: seq<PvcStream>, i: nat, md5Sums: map<string, string>, settings: Settings,
                            failing: set<string>)
    requires i < |streams| && |streams[i].StreamName| > 0
    requires UploadsSucceed(Plan(streams[..i], md5Sums, settings), failing)
    requires StreamNameToKey(streams[i].StreamName) in failing
    ensures RunUploads(Plan(streams, md5Sums, settings), failing)
         == UploadRun(Plan(streams[..i + 1], md5Sums, settings), Some(StreamNameToKey(streams[i].StreamName)))
  {
    var done := Plan(streams[..i], md5Sums, settings);
    var request := UploadFor(streams[i], md5Sums, settings);
    var rest := Plan(streams[i + 1..], md5Sums, settings);
    PlanStep(streams, i, md5Sums, settings);
    assert streams == streams[..i + 1] + streams[i + 1..];
    PlanAppend(streams[..i + 1], streams[i + 1..], md5Sums, settings);
    assert done + [request] + rest == done + ([request] + rest);
    RunUploadsAfterSuccesses(done, [request] + rest, failing);
  }

  /** Uploads that all succeed are all attempted and no key is reported. */
  lemma {:induction false} RunUploadsAll(plan: seq<UploadRequest>, failing: set<string>)
    requires UploadsSucceed(plan, failing)
    ensures RunUploads(plan, failing) == UploadRun(plan, None)
  {
    if plan != [] {
      RunUploadsAll(plan[1..], failing);
      assert [plan[0]] + plan[1..] == plan;
    }
  }

  /** When some upload throws, exactly those up to the first throwing one are
      attempted, and that one's key is reported. */
  lemma {:induction false} RunUploadsStops(plan: seq<UploadRequest>, failing: set<string>)
    requires !UploadsSucceed(plan, failing)
    ensures var done := RunUploads(plan, failing).attempted;
      && 0 < |done| <= |plan| && done == plan[..|done|]
      && UploadsSucceed(done[..|done| - 1], failing)
      && done[|done| - 1].Key in failing
      && RunUploads(plan, failing).failedKey == Some(done[|done| - 1].Key)
  {
    if plan[0].Key !in failing {
      var rest := plan[1..];
      assert !UploadsSucceed(rest, failing) by {
        var j :| 0 <= j < |plan| && plan[j].Key in failing;
        assert rest[j - 1] == plan[j];
      }
      RunUploadsStops(rest, failing);
      var done := RunUploads(rest, failing).attempted;
      assert [plan[0]] + done == plan[..|done| + 1];
      assert ([plan[0]] + done)[..|done|] == [plan[0]] + done[..|done| - 1];
    }
  }

  /** Uploads that succeed before a list of others are attempted in front of it. */
  lemma {:induction false} RunUploadsAfterSuccesses(done: seq<UploadRequest>, rest: seq<UploadRequest>, failing: set<string>)
    requires UploadsSucceed(done, failing)
    ensures RunUploads(done + rest, failing)
         == UploadRun(done + RunUploads(rest, failing).attempted, RunUploads(rest, failing).failedKey)
  {
    if done != [] {
      RunUploadsAfterSuccesses(done[1..], rest, failing);
      assert (done + rest)[1..] == done[1..] + rest;
      assert [done[0]] + (done[1..] + RunUploads(rest, failing).attempted) == done + RunUploads(rest, failing).attempted;
    } else {
      assert done + rest == rest;
    }
  }
}
