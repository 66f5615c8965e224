/**
 * The `PvcCloudFront` pipeline plugin: the two dictionaries it keeps across
 * calls, `FilterUploadedFiles` (bucket listing, digest comparison, rewind) and
 * `Execute` (uploads with their headers, then at most one invalidation).
 *
 * The collaborators are inputs: MD5 and Base64 are functions fixed at
 * construction, the bucket listing is `listing`, the keys whose upload throws
 * are `failingUploads`, CloudFront's answer to `CreateInvalidation` is
 * `cloudFront`, and the wall-clock caller reference is `callerReference`.  The
 * requests handed to `TransferUtility.Upload` and to `CreateInvalidation` are
 * appended to `uploads` and `invalidations`.
 */
module Plugin {
  import opened Wrappers
  import opened Seqs
  import opened Hex
  import opened Text
  import opened Index
  import opened Diff
  import opened Streams
  import opened Publish

  /** An MD5 hash: 16 bytes. */
  type Digest = d: seq<byte> | |d| == 16 witness seq(16, _ => 0 as byte)

  datatype RunError =
    | DuplicateBucketKey(key: string)  // `keyEtags.Add` on a key already recorded
    | UploadFailed(key: string)        // `transfer.Upload` threw
    | InvalidationThrew(message: string) // `CreateInvalidation` threw something not caught

  /** `Execute` either returns its input streams (with the invalidation branch that
      ran) or throws. */
  datatype RunOutcome =
    | Completed(streams: seq<PvcStream>, invalidation: InvalidationReport)
    | Aborted(error: RunError)

  /** The bytes `ComputeHash` reads for stream i when the streams stood at
      `positions` on entry: a stream object met before has been rewound. */
  function BytesHashed(streams: seq<PvcStream>, positions: seq<nat>, i: nat): seq<byte>
    requires |positions| == |streams| && i < |streams|
  {
    if streams[i] in streams[..i] then streams[i].Data else Suffix(streams[i].Data, positions[i])
  }

  /** The streams at the given positions, in the order of the positions. */
  function Select(streams: seq<PvcStream>, positions: seq<nat>): seq<PvcStream> {
    if positions == [] then []
    else
      var p := positions[|positions| - 1];
      Select(streams, positions[..|positions| - 1]) + (if p < |streams| then [streams[p]] else [])
  }

  /** One more stream looked at: the selection grows by it exactly when it is included. */
  lemma SelectIncludedStep(t: Tables, es: seq<Entry>, streams: seq<PvcStream>, n: nat)
    requires n < |es| == |streams|
    ensures Select(streams, Included(t, es[..n + 1]))
         == Select(streams, Included(t, es[..n]))
            + (if Changed(Replay(t, es[..n]).etags, es[n]) then [streams[n]] else [])
  {
    assert es[..n + 1][..n] == es[..n];
    var inc := Included(t, es[..n]);
    if Changed(Replay(t, es[..n]).etags, es[n]) {
      assert Included(t, es[..n + 1]) == inc + [n];
      assert (inc + [n])[..|inc|] == inc;
    } else {
      assert Included(t, es[..n + 1]) == inc;
    }
  }

  /** Before stream n is hashed, what is left of it is what `BytesHashed` says:
      the streams met before have been rewound, the others stand where they stood. */
  lemma RemainingIsHashed(streams: seq<PvcStream>, positions: seq<nat>, n: nat)
    requires |positions| == |streams| && n < |streams|
    requires forall s :: s in streams[..n] ==> s.Position == 0
    requires streams[n] !in streams[..n] ==> streams[n].Position == positions[n]
    ensures streams[n].Remaining() == BytesHashed(streams, positions, n)
  {
    assert Suffix(streams[n].Data, 0) == streams[n].Data;
  }

  /** When every stream's digest is already recorded under its key, the run uploads
      nothing, leaves the tables as they were and so skips the invalidation. */
  lemma UnchangedRunPublishesNothing(t: Tables, es: seq<Entry>, streams: seq<PvcStream>,
                                     md5Sums: map<string, string>, settings: Settings)
    requires forall i :: 0 <= i < |es| ==> es[i].key in t.etags && t.etags[es[i].key] == es[i].fingerprint.hex
    ensures Plan(Select(streams, Included(t, es)), md5Sums, settings) == []
    ensures Replay(t, es) == t
  {
    NothingChanged(t, es);
  }

  /** A second `Execute` on the same instance, after a first one loaded a non-empty
      listing and ran the include/skip rule over its streams, throws from
      `Dictionary.Add` on the first listed key when the bucket lists the same keys. */
  lemma SecondLoadFails(etags: map<string, string>, listing: seq<S3Object>, md5Sums: map<string, string>,
                        es: seq<Entry>)
    requires listing != [] && LoadListing(etags, listing).Loaded?
    ensures var after := Replay(Tables(LoadListing(etags, listing).etags, md5Sums), es);
      LoadListing(after.etags, listing) == DuplicateKey(listing[0].Key, after.etags)
  {
    LoadedKeys(etags, listing);
    assert listing[0].Key in ListedKeys(listing);
    ReplayGrows(Tables(LoadListing(etags, listing).etags, md5Sums), es);
  }

  /** The tables and the selection after the first n entries went through the
      include/skip rule, and every selected stream has its Content-MD5 recorded. */
  predicate Selected(streams: seq<PvcStream>, es: seq<Entry>, t0: Tables, n: nat, tables: Tables,
                     filtered: seq<PvcStream>)
  {
    && |es| == |streams| && n <= |es|
    && tables == Replay(t0, es[..n])
    && filtered == Select(streams, Included(t0, es[..n]))
    && forall s :: s in filtered ==> StreamNameToKey(s.StreamName) in tables.md5Sums
  }

  /** Entry n through the rule: the tables record it, and the stream joins the
      selection exactly when it was included. */
  lemma SelectedStep(streams: seq<PvcStream>, es: seq<Entry>, t0: Tables, n: nat, tables: Tables,
                     filtered: seq<PvcStream>)
    requires n < |es| && Selected(streams, es, t0, n, tables, filtered)
    requires es[n].key == StreamNameToKey(streams[n].StreamName)
    ensures Selected(streams, es, t0, n + 1, Record(tables, es[n]),
                     if Changed(tables.etags, es[n]) then filtered + [streams[n]] else filtered)
  {
    ReplayStep(t0, es, n);
    SelectIncludedStep(t0, es, streams, n);
  }

  /** The streams before n stand at 0, and those not met yet where they stood. */
  ghost predicate Rewound(streams: seq<PvcStream>, positions: seq<nat>, n: nat)
    reads streams
  {
    && |positions| == |streams| && n <= |streams|
    && (forall s :: s in streams[..n] ==> s.Position == 0)
    && forall j :: n <= j < |streams| && streams[j] !in streams[..n] ==> streams[j].Position == positions[j]
  }

  /** Rewinding stream n extends the rewound prefix by one. */
  lemma RewoundStep(streams: seq<PvcStream>, positions: seq<nat>, n: nat)
    requires n < |streams| && |positions| == |streams|
    requires forall s :: s in streams[..n] && s != streams[n] ==> s.Position == 0
    requires streams[n].Position == 0
    requires forall j :: n < j < |streams| && streams[j] !in streams[..n + 1] ==> streams[j].Position == positions[j]
    ensures Rewound(streams, positions, n + 1)
  {
    TakeStep(streams, n);
  }

  ghost function Positions(streams: seq<PvcStream>): (r: seq<nat>)
    reads streams
    ensures |r| == |streams| && forall i :: 0 <= i < |streams| ==> r[i] == streams[i].Position
  {
    if streams == [] then []
    else Positions(streams[..|streams| - 1]) + [streams[|streams| - 1].Position]
  }

  class PvcCloudFront {
    const bucketName: string
    const distributionId: string
    const maxAge: string
    const htmlMaxAge: string
    const md5: seq<byte> -> Digest
    const base64: seq<byte> -> string

    var keyEtags: map<string, string>
    var keyMD5Sums: map<string, string>
    var uploads: seq<UploadRequest>
    var invalidations: seq<CreateInvalidationRequest>

    constructor (md5: seq<byte> -> Digest, base64: seq<byte> -> string,
                 bucketName: string, distributionId: string,
                 maxAge: int := 300, htmlMaxAge: int := 60)
      ensures this.md5 == md5 && this.base64 == base64
      ensures this.bucketName == bucketName && this.distributionId == distributionId
      ensures this.maxAge == IntToDecimal(maxAge) && this.htmlMaxAge == IntToDecimal(htmlMaxAge)
      ensures keyEtags == map[] && keyMD5Sums == map[]
      ensures uploads == [] && invalidations == []
    {
      this.md5, this.base64 := md5, base64;
      this.bucketName, this.distributionId := bucketName, distributionId;
      this.maxAge := IntToDecimal(maxAge);
      this.htmlMaxAge := IntToDecimal(htmlMaxAge);
      keyEtags, keyMD5Sums := map[], map[];
      uploads, invalidations := [], [];
    }

    function UploadSettings(): Settings {
      Publish.Settings(bucketName, maxAge, htmlMaxAge)
    }

    /** The lower-case hex and the Base64 rendering of the MD5 of some bytes. */
    function FingerprintOf(bytes: seq<byte>): Fingerprint {
      Fingerprint(Base16(md5(bytes), false), base64(md5(bytes)))
    }

    /** What the include/skip rule sees for each stream. */
    function Entries(streams: seq<PvcStream>, positions: seq<nat>): seq<Entry>
      requires |positions| == |streams|
    {
      seq(|streams|, i requires 0 <= i < |streams| =>
        Entry(StreamNameToKey(streams[i].StreamName), FingerprintOf(BytesHashed(streams, positions, i))))
    }

    /** The first loop of `FilterUploadedFiles`: `keyEtags.Add` for every listed
        object, stopping at the first key already present. */
    method LoadIndex(listing: seq<S3Object>) returns (duplicate: Option<string>)
      modifies this`keyEtags
      ensures LoadListing(old(keyEtags), listing).DuplicateKey? ==>
        && duplicate == Some(LoadListing(old(keyEtags), listing).key)
        && keyEtags == LoadListing(old(keyEtags), listing).partial
      ensures LoadListing(old(keyEtags), listing).Loaded? ==>
        duplicate == None && keyEtags == LoadListing(old(keyEtags), listing).etags
    {
      var i := 0;
      while i < |listing|
        invariant 0 <= i <= |listing|
        invariant LoadListing(keyEtags, listing[i..]) == LoadListing(old(keyEtags), listing)
      {
        var o := listing[i];
        assert listing[i..][0] == o && listing[i..][1..] == listing[i + 1..];
        if o.Key in keyEtags {
          return Some(o.Key);
        }
        keyEtags := keyEtags[o.Key := TrimQuotes(o.ETag)];
        i := i + 1;
      }
      return None;
    }

    /** The body of the second loop of `FilterUploadedFiles` for one stream: hash
        what is left of it, include it when its key is new or recorded with another
        digest (recording both digests), and rewind it either way. */
    method CheckStream(stream: PvcStream) returns (included: bool)
      modifies this`keyEtags, this`keyMD5Sums, stream
      ensures var e := Entry(StreamNameToKey(stream.StreamName), FingerprintOf(old(stream.Remaining())));
        && included == Changed(old(keyEtags), e)
        && Tables(keyEtags, keyMD5Sums) == Record(old(Tables(keyEtags, keyMD5Sums)), e)
      ensures stream.Position == 0
    {
      var bytes := stream.ReadToEnd();
      var md5bytes := md5(bytes);
      var md5sum := ToHex(md5bytes, false);
      var md5base64 := base64(md5bytes);
      var key := StreamNameToKey(stream.StreamName);
      included := !(key in keyEtags) || keyEtags[key] != md5sum;
      if included {
        keyEtags := keyEtags[key := md5sum];
        keyMD5Sums := keyMD5Sums[key := md5base64];
      }
      stream.ResetStreamPosition();
    }

    /** The second loop of `FilterUploadedFiles`: every stream in turn goes through
        CheckStream, and the included ones are collected in order. */
    method FilterStreams(inputStreams: seq<PvcStream>) returns (filtered: seq<PvcStream>)
      modifies this`keyEtags, this`keyMD5Sums, inputStreams
      ensures var t0 := old(Tables(keyEtags, keyMD5Sums));
        var es := Entries(inputStreams, old(Positions(inputStreams)));
        && filtered == Select(inputStreams, Included(t0, es))
        && Tables(keyEtags, keyMD5Sums) == Replay(t0, es)
      ensures forall s :: s in filtered ==> StreamNameToKey(s.StreamName) in keyMD5Sums
      ensures forall s :: s in inputStreams ==> s.Position == 0
    {
      ghost var positions := Positions(inputStreams);
      ghost var t0 := Tables(keyEtags, keyMD5Sums);
      ghost var es := Entries(inputStreams, positions);
      filtered := [];
      for n := 0 to |inputStreams|
        invariant Filtering(inputStreams, positions, t0, n, filtered)
      {
        filtered := FilterStep(inputStreams, positions, t0, n, filtered);
      }
      FilteringDone(inputStreams, positions, t0, filtered);
    }

    /** Once every stream went through CheckStream, the invariant speaks of all entries. */
    lemma FilteringDone(streams: seq<PvcStream>, positions: seq<nat>, t0: Tables, filtered: seq<PvcStream>)
      requires Filtering(streams, positions, t0, |streams|, filtered)
      ensures var es := Entries(streams, positions);
        && filtered == Select(streams, Included(t0, es))
        && Tables(keyEtags, keyMD5Sums) == Replay(t0, es)
      ensures forall s :: s in filtered ==> StreamNameToKey(s.StreamName) in keyMD5Sums
      ensures forall s :: s in streams ==> s.Position == 0
    {
      assert Entries(streams, positions)[..|streams|] == Entries(streams, positions);
      assert streams[..|streams|] == streams;
    }

    /** What holds after the first n streams went through CheckStream: the tables
        and the selection are those of the first n entries, the streams met so far
        are rewound and the others stand where they stood. */
    ghost predicate Filtering(streams: seq<PvcStream>, positions: seq<nat>, t0: Tables, n: nat,
                              filtered: seq<PvcStream>)
      reads this, streams
    {
      && |positions| == |streams| && n <= |streams|
      && Selected(streams, Entries(streams, positions), t0, n, Tables(keyEtags, keyMD5Sums), filtered)
      && Rewound(streams, positions, n)
    }

    /** One turn of the second loop of `FilterUploadedFiles`. */
    method FilterStep(streams: seq<PvcStream>, ghost positions: seq<nat>, ghost t0: Tables, n: nat,
                      filtered: seq<PvcStream>)
      returns (filtered': seq<PvcStream>)
      requires n < |streams| && Filtering(streams, positions, t0, n, filtered)
      modifies this`keyEtags, this`keyMD5Sums, streams[n]
      ensures Filtering(streams, positions, t0, n + 1, filtered')
    {
      ghost var es := Entries(streams, positions);
      var stream := streams[n];
      RemainingIsHashed(streams, positions, n);
      SelectedStep(streams, es, t0, n, Tables(keyEtags, keyMD5Sums), filtered);
      var included := CheckStream(stream);
      filtered' := filtered;
      if included {
        filtered' := filtered + [stream];
      }
      RewoundStep(streams, positions, n);
    }

    method FilterUploadedFiles(inputStreams: seq<PvcStream>, listing: seq<S3Object>)
      returns (r: Result<seq<PvcStream>, RunError>)
      modifies this`keyEtags, this`keyMD5Sums, inputStreams
      ensures LoadListing(old(keyEtags), listing).DuplicateKey? ==>
        && r == Failure(DuplicateBucketKey(LoadListing(old(keyEtags), listing).key))
        && keyEtags == LoadListing(old(keyEtags), listing).partial
        && keyMD5Sums == old(keyMD5Sums)
        && forall s :: s in inputStreams ==> s.Position == old(s.Position)
      ensures LoadListing(old(keyEtags), listing).Loaded? ==>
        var t0 := Tables(LoadListing(old(keyEtags), listing).etags, old(keyMD5Sums));
        var es := Entries(inputStreams, old(Positions(inputStreams)));
        && r == Success(Select(inputStreams, Included(t0, es)))
        && Tables(keyEtags, keyMD5Sums) == Replay(t0, es)
        && (forall s :: s in r.value ==> StreamNameToKey(s.StreamName) in keyMD5Sums)
        && forall s :: s in inputStreams ==> s.Position == 0
    {
      var duplicate := LoadIndex(listing);
      if duplicate.Some? {
        return Failure(DuplicateBucketKey(duplicate.value));
      }
      var filtered := FilterStreams(inputStreams);
      return Success(filtered);
    }

    /** The body of the upload loop of `Execute` for a stream with a name: the
        request with its Content-MD5 and cache headers, handed to `Upload`. */
    method UploadStream(inputStream: PvcStream, failingUploads: set<string>) returns (failed: bool)
      requires |inputStream.StreamName| > 0
      requires StreamNameToKey(inputStream.StreamName) in keyMD5Sums
      modifies this`uploads
      ensures uploads == old(uploads) + [UploadFor(inputStream, keyMD5Sums, UploadSettings())]
      ensures failed <==> StreamNameToKey(inputStream.StreamName) in failingUploads
    {
      var key := StreamNameToKey(inputStream.StreamName);
      var contentMD5 := keyMD5Sums[key];
      var headers;
      if ".html" in inputStream.Tags {
        headers := Headers(contentMD5, "max-age=" + htmlMaxAge, Some("text/html"));
      } else {
        headers := Headers(contentMD5, "max-age=" + maxAge, None);
      }
      uploads := uploads + [UploadRequest(bucketName, key, inputStream, headers)];
      failed := key in failingUploads;
    }

    /** The upload loop of `Execute`: for each filtered stream with a non-empty name,
        add its invalidation path and upload it; an upload that throws ends the loop. */
    method UploadFiltered(filtered: seq<PvcStream>, failingUploads: set<string>)
      returns (paths: seq<string>, failedKey: Option<string>)
      requires forall s :: s in filtered ==> StreamNameToKey(s.StreamName) in keyMD5Sums
      modifies this`uploads
      ensures var run := RunUploads(Plan(filtered, keyMD5Sums, UploadSettings()), failingUploads);
        uploads == old(uploads) + run.attempted && failedKey == run.failedKey
      ensures failedKey.None? ==> paths == InvalidationPaths(Plan(filtered, keyMD5Sums, UploadSettings()))
    {
      paths, failedKey := [], None;
      for i := 0 to |filtered|
        invariant failedKey == None && Uploading(filtered, i, paths, old(uploads), failingUploads)
      {
        paths, failedKey := UploadStep(filtered, i, paths, old(uploads), failingUploads);
        if failedKey.Some? {
          return;
        }
      }
      assert filtered[..|filtered|] == filtered;
      RunUploadsAll(Plan(filtered, keyMD5Sums, UploadSettings()), failingUploads);
    }

    /** What holds after the first i filtered streams were handled without an upload
        throwing: their requests were handed to `Upload` and their paths collected. */
    ghost predicate Uploading(filtered: seq<PvcStream>, i: nat, paths: seq<string>,
                              start: seq<UploadRequest>, failingUploads: set<string>)
      reads this
    {
      && i <= |filtered|
      && uploads == start + Plan(filtered[..i], keyMD5Sums, UploadSettings())
      && paths == InvalidationPaths(Plan(filtered[..i], keyMD5Sums, UploadSettings()))
      && UploadsSucceed(Plan(filtered[..i], keyMD5Sums, UploadSettings()), failingUploads)
    }

    /** One turn of the upload loop of `Execute`: a stream without a name is passed
        over; otherwise its path is added and it is uploaded, and a throwing upload
        ends the whole run. */
    method UploadStep(filtered: seq<PvcStream>, i: nat, paths: seq<string>,
                      ghost start: seq<UploadRequest>, failingUploads: set<string>)
      returns (paths': seq<string>, failedKey: Option<string>)
      requires i < |filtered| && Uploading(filtered, i, paths, start, failingUploads)
      requires forall s :: s in filtered ==> StreamNameToKey(s.StreamName) in keyMD5Sums
      modifies this`uploads
      ensures failedKey.None? ==> Uploading(filtered, i + 1, paths', start, failingUploads)
      ensures failedKey.Some? ==>
        var run := RunUploads(Plan(filtered, keyMD5Sums, UploadSettings()), failingUploads);
        uploads == start + run.attempted && failedKey == run.failedKey
    {
      var inputStream := filtered[i];
      PlanStep(filtered, i, keyMD5Sums, UploadSettings());
      paths' := paths;
      if |inputStream.StreamName| == 0 {
        return paths', None;
      }
      var key := StreamNameToKey(inputStream.StreamName);
      paths' := paths' + ["/" + key];
      var failed := UploadStream(inputStream, failingUploads);
      if failed {
        FirstFailureEndsRun(filtered, i, keyMD5Sums, UploadSettings(), failingUploads);
        return paths', Some(key);
      }
      PathsStep(Plan(filtered[..i], keyMD5Sums, UploadSettings()), UploadFor(inputStream, keyMD5Sums, UploadSettings()));
      return paths', None;
    }

    /** Everything `Execute` does after filtering: upload the filtered streams, then
        create one invalidation for their paths when there are any. An upload that
        throws ends the run; a failing invalidation is caught and reported. */
    method PublishFiltered(filtered: seq<PvcStream>, callerReference: string,
                           failingUploads: set<string>, cloudFront: InvalidationResponse)
      returns (result: Result<InvalidationReport, RunError>)
      requires forall s :: s in filtered ==> StreamNameToKey(s.StreamName) in keyMD5Sums
      modifies this`uploads, this`invalidations
      ensures var plan := Plan(filtered, keyMD5Sums, UploadSettings());
        var run := RunUploads(plan, failingUploads);
        && uploads == old(uploads) + run.attempted
        && (run.failedKey.Some? ==>
              result == Failure(UploadFailed(run.failedKey.value)) && invalidations == old(invalidations))
        && (run.failedKey.None? && plan == [] ==>
              result == Success(NoFilesChanged) && invalidations == old(invalidations))
        && (run.failedKey.None? && plan != [] ==>
              && invalidations == old(invalidations)
                 + [InvalidationRequestFor(distributionId, callerReference, InvalidationPaths(plan))]
              && (cloudFront.OtherException? ==> result == Failure(InvalidationThrew(cloudFront.message)))
              && (!cloudFront.OtherException? ==> result == Success(ReportFor(cloudFront).value)))
    {
      var paths, failedKey := UploadFiltered(filtered, failingUploads);
      if failedKey.Some? {
        return Failure(UploadFailed(failedKey.value));
      }
      if |paths| > 0 {
        var request := CreateInvalidationRequest(distributionId,
          InvalidationBatch(callerReference, Paths(|paths|, paths)));
        invalidations := invalidations + [request];
        match cloudFront {
          case Created(id, status) =>
            result := Success(Invalidated(id, status));
          case TooManyInvalidationsInProgress =>
            result := Success(Throttled);
          case CloudFrontError(message) =>
            result := Success(InvalidationFailed(message));
          case OtherException(message) =>
            result := Failure(InvalidationThrew(message));
        }
        return;
      }
      return Success(NoFilesChanged);
    }

    method Execute(inputStreams: seq<PvcStream>, listing: seq<S3Object>, callerReference: string,
                   failingUploads: set<string>, cloudFront: InvalidationResponse)
      returns (outcome: RunOutcome)
      modifies this`keyEtags, this`keyMD5Sums, this`uploads, this`invalidations, inputStreams
      ensures LoadListing(old(keyEtags), listing).DuplicateKey? ==>
        && outcome == Aborted(DuplicateBucketKey(LoadListing(old(keyEtags), listing).key))
        && keyEtags == LoadListing(old(keyEtags), listing).partial
        && keyMD5Sums == old(keyMD5Sums)
        && uploads == old(uploads) && invalidations == old(invalidations)
        && forall s :: s in inputStreams ==> s.Position == old(s.Position)
      ensures LoadListing(old(keyEtags), listing).Loaded? ==>
        var t0 := Tables(LoadListing(old(keyEtags), listing).etags, old(keyMD5Sums));
        var es := Entries(inputStreams, old(Positions(inputStreams)));
        var plan := Plan(Select(inputStreams, Included(t0, es)), Replay(t0, es).md5Sums, UploadSettings());
        var run := RunUploads(plan, failingUploads);
        && Tables(keyEtags, keyMD5Sums) == Replay(t0, es)
        && (forall s :: s in inputStreams ==> s.Position == 0)
        && uploads == old(uploads) + run.attempted
        && (run.failedKey.Some? ==>
              outcome == Aborted(UploadFailed(run.failedKey.value)) && invalidations == old(invalidations))
        && (run.failedKey.None? && plan == [] ==>
              outcome == Completed(inputStreams, NoFilesChanged) && invalidations == old(invalidations))
        && (run.failedKey.None? && plan != [] ==>
              && invalidations == old(invalidations)
                 + [InvalidationRequestFor(distributionId, callerReference, InvalidationPaths(plan))]
              && (cloudFront.OtherException? ==> outcome == Aborted(InvalidationThrew(cloudFront.message)))
              && (!cloudFront.OtherException? ==> outcome == Completed(inputStreams, ReportFor(cloudFront).value)))
    {
      var filteredInputStreams := FilterUploadedFiles(inputStreams, listing);
      if filteredInputStreams.Failure? {
        return Aborted(filteredInputStreams.error);
      }
      var published := PublishFiltered(filteredInputStreams.value, callerReference, failingUploads, cloudFront);
      if published.Failure? {
        return Aborted(published.error);
      }
      return Completed(inputStreams, published.value);
    }
  }
}
