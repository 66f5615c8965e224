# pvc-cloudfront in Dafny

A model of the `PvcCloudFront` pipeline plugin (`src/PvcCloudFront.cs`). The
plugin publishes a static site to an S3 bucket that sits behind a CloudFront
distribution. It uploads only the files whose content changed, and then asks
CloudFront to invalidate exactly the paths it uploaded.

What a call to `Execute` does, and how it is modelled:

1. **Index load.** The bucket listing is added to the `keyEtags` dictionary,
   one entry per key. The value is the object's ETag without its surrounding
   `"` characters. `Dictionary.Add` throws on a key that is already present.
   - `Index.LoadListing` is the fold over the listing.
   - `Plugin.PvcCloudFront.LoadIndex` is the loop that updates the field.
2. **Diff and filter.** Each stream goes through the same steps:
   - it is hashed with MD5 from where it stands;
   - the digest is rendered as lower-case hex (`ToHex`) and as Base64;
   - its name becomes an S3 key (`StreamNameToKey`);
   - it is included when the key is unknown or is recorded with another hex
     digest. An included stream overwrites the key's entries in `keyEtags` and
     `keyMD5Sums`;
   - it is rewound either way.

   Models:
   - `Diff.Record`, `Diff.Replay` and `Diff.Included` state the rule as a pure
     fold, and the lemmas in `Diff` are proved about it.
   - `Plugin.PvcCloudFront.FilterStreams` is the loop over `PvcStream` objects
     whose `Position` it changes. It is proved to compute exactly that fold.
3. **Uploads.** For each included stream with a non-empty name, `Execute`:
   - builds an upload request: the key, the Content-MD5 recorded for the key,
     and `max-age=` with the HTML max-age plus `text/html` for streams tagged
     `.html`, or the default max-age otherwise;
   - adds `"/" + key` to the invalidation paths;
   - hands the request to `TransferUtility.Upload`.

   Models:
   - `Publish.Plan` is the list of requests.
   - `Publish.RunUploads` says which requests are attempted when an upload
     throws.
   - `Plugin.PvcCloudFront.UploadFiltered` is the loop.
4. **Invalidation.** Exactly one `CreateInvalidation` request is sent when
   there is at least one path, and none otherwise. Its `Quantity` is the number
   of paths. A throttling error or any other CloudFront error is caught and
   only reported. An exception that is not a CloudFront error is not caught,
   so it escapes `Execute`. Otherwise `Execute` returns its input streams
   unchanged.
   - `Plugin.PvcCloudFront.PublishFiltered` and `Plugin.PvcCloudFront.Execute`
     model this step.

The outside world becomes inputs:
- MD5 and `Convert.ToBase64String` are functions fixed when the plugin is
  constructed. MD5 yields 16 bytes.
- The `ListObjects` response is the `listing` parameter.
- The keys whose upload throws are the `failingUploads` parameter.
- CloudFront's answer to `CreateInvalidation` is the `cloudFront` parameter.
- `GetHttpDate()` is the `callerReference` parameter.
- The requests the plugin sends are appended to the `uploads` and
  `invalidations` fields.

Three behaviours of the code that a reader might not expect. The model follows
the code in each:
- **ETag normalisation.** `Trim('"')` strips quotes only, not whitespace
  (`Text.TrimQuotesSlice`).
- **A second `Execute` on the same instance.** One would expect a second run
  against unchanged files and an unchanged bucket to upload nothing. In the
  code, `keyEtags` is created in the constructor and never cleared. So a
  second `Execute` on the same instance throws from `Dictionary.Add` as soon
  as the bucket lists a key that the first run recorded
  (`Plugin.SecondLoadFails`, for the tables the first run leaves). The
  idempotence holds for the include/skip rule itself
  (`Diff.SecondPassIncludesNothing`), and for a run whose bucket already holds
  every digest (`Plugin.UnchangedRunPublishesNothing`).
- **Two streams with the same key.** When the key is new to the bucket and
  their bytes differ, both are included. `keyMD5Sums` then holds the later
  digest, so the first upload under that key is sent with the second stream's
  Content-MD5 (`Diff.DuplicateKeyCarriesLaterDigest`). When the bucket already
  records the first stream's digest, only the second is included.

Module layout:
- `Wrappers`: Option and Result.
- `Seqs`: small sequence facts.
- `Hex`: `ToHex`.
- `Text`: `StreamNameToKey`, `Trim('"')` and `int.ToString()`.
- `Index`: the listing load.
- `Diff`: the include/skip rule.
- `Streams`: the part of `PvcStream` the plugin uses.
- `Publish`: the requests `Execute` builds.
- `Plugin`: the `PvcCloudFront` class.

## Model

| member | source | states |
|---|---|---|
| Hex.ToHex | src/PvcCloudFront.cs:85-91 | the StringBuilder loop yields the Base16 text of the bytes, two digits per byte |
| Hex.Base16Layout | src/PvcCloudFront.cs:85-91 | the result is twice as long as the input; characters 2i and 2i+1 are the high and low nibble digits of byte i |
| Hex.Base16IsLowerCase | src/PvcCloudFront.cs:111 | with the "x2" format (upperCase false) every character is one of 0-9 a-f |
| Hex.Base16RoundTrip | src/PvcCloudFront.cs:85-91 | decoding the hex text gives back exactly the bytes, in either case |
| Hex.FromHexLength | src/PvcCloudFront.cs:85-91 | a lower-case hex string decodes exactly when its length is even |
| Hex.FromHexIsInverse | src/PvcCloudFront.cs:85-91 | every lower-case hex string that decodes is the lower-case encoding of its decoding |
| Hex.Base16Injective | src/PvcCloudFront.cs:111-114 | two digests have equal hex renderings exactly when they are equal, so comparing the ETag string compares digests |
| Text.StreamNameToKey | src/PvcCloudFront.cs:80-83 | defines the key of a stream name, character by character; its properties are the Key* lemmas below |
| Text.TrimQuotes | src/PvcCloudFront.cs:103 | defines `Trim('"')` as the front trim followed by the back trim; its properties are the TrimQuotes* lemmas below |
| Text.IntToDecimal | src/PvcCloudFront.cs:54-55 | defines `int.ToString()`: a '-' for a negative value, then the decimal digits |
| Text.KeyReplacesBackslashes | src/PvcCloudFront.cs:80-83 | the key is as long as the name; every backslash becomes a slash and every other character is unchanged |
| Text.KeyHasNoBackslash | src/PvcCloudFront.cs:80-83 | no key contains a backslash |
| Text.KeyOfSlashFreeName | src/PvcCloudFront.cs:80-83 | a name without backslashes is its own key |
| Text.KeyIdempotent | src/PvcCloudFront.cs:80-83 | turning a key into a key again changes nothing |
| Text.TrimStartSuffix | src/PvcCloudFront.cs:103 | trimming the front leaves a suffix that does not start with a quote, and everything removed is a quote |
| Text.TrimEndPrefix | src/PvcCloudFront.cs:103 | trimming the back leaves a prefix that does not end with a quote, and everything removed is a quote |
| Text.TrimQuotesUnquoted | src/PvcCloudFront.cs:103 | a trimmed ETag neither starts nor ends with a quote |
| Text.TrimQuotesSlice | src/PvcCloudFront.cs:103 | the trimmed ETag is a contiguous slice of the original; only quotes lie outside it and interior characters are kept |
| Text.TrimQuotesKeepsUnquoted | src/PvcCloudFront.cs:103 | an ETag without surrounding quotes is stored as it is |
| Text.TrimQuotesOfQuoted | src/PvcCloudFront.cs:103 | the usual quoted ETag "\"" + d + "\"" is stored as d |
| Text.TrimQuotesIdempotent | src/PvcCloudFront.cs:103 | trimming twice is trimming once |
| Text.NatToDecimalRoundTrip | src/PvcCloudFront.cs:54-55 | a max-age renders as decimal digits without a leading zero, and reading them back gives the number |
| Text.DefaultMaxAges | src/PvcCloudFront.cs:46-55 | the default max-ages 300 and 60 render as "300" and "60" |
| Index.LoadListing | src/PvcCloudFront.cs:101-104 | defines the load: each listed object is added with its trimmed ETag, and the load stops at the first key already present with the entries added so far |
| Index.LoadSucceedsIff | src/PvcCloudFront.cs:101-104 | the load succeeds exactly when no listed key is already recorded and no key is listed twice |
| Index.LoadedKeys | src/PvcCloudFront.cs:101-104 | after a successful load the recorded keys are the old ones plus the listed ones |
| Index.LoadedKeepsOld | src/PvcCloudFront.cs:101-104 | a successful load leaves every key recorded before with its old value |
| Index.LoadedValues | src/PvcCloudFront.cs:101-104 | after a successful load each listed key maps to its ETag with the quotes trimmed |
| Index.ReloadFails | src/PvcCloudFront.cs:101-104 | since keyEtags is never cleared, loading the same non-empty listing again throws on its first key |
| Diff.Record | src/PvcCloudFront.cs:114-120 | defines one stream's turn: a changed stream writes its hex digest to keyEtags and its Base64 digest to keyMD5Sums, and a skipped one changes nothing |
| Diff.Replay | src/PvcCloudFront.cs:106-127 | defines the two dictionaries after the streams were looked at in order |
| Diff.Included | src/PvcCloudFront.cs:114-117 | defines the positions of the included streams, judged against the dictionaries each stream meets at its turn |
| Diff.ReplaySplit | src/PvcCloudFront.cs:106-127 | the whole loop is the loop over the streams after i, started from the dictionaries the first i + 1 left |
| Diff.IncludedIff | src/PvcCloudFront.cs:114-117 | a stream is included exactly when, at its turn, its key is absent or recorded with a different hex digest |
| Diff.IncludedOrdered | src/PvcCloudFront.cs:117 | the included streams keep their input order |
| Diff.ReplayAppend | src/PvcCloudFront.cs:106-127 | looking at two runs of streams one after the other is looking at their concatenation |
| Diff.DigestRecorded | src/PvcCloudFront.cs:114-120 | after stream i, keyEtags[key] is its hex digest whether included or skipped, and when included keyMD5Sums[key] is its Base64 digest |
| Diff.ReplayFrame | src/PvcCloudFront.cs:118-119 | keys that no stream maps to keep their entries in both dictionaries |
| Diff.ReplayGrows | src/PvcCloudFront.cs:118-119 | entries are only added or overwritten, and every looked-at key ends up in keyEtags |
| Diff.LastDigestWins | src/PvcCloudFront.cs:106-127 | after all streams a key's recorded hex digest is that of the last stream with the key |
| Diff.RepeatSkipped | src/PvcCloudFront.cs:114-124 | a later stream with the same key and the same digest as the previous one with that key is skipped |
| Diff.NothingChanged | src/PvcCloudFront.cs:114-124 | when every key is recorded with its stream's digest nothing is included and neither dictionary changes |
| Diff.SecondPassIncludesNothing | src/PvcCloudFront.cs:106-127 | running the rule again over the same streams (distinct keys) from the dictionaries the first pass left includes nothing and changes nothing |
| Diff.SkippedKeepDigest | src/PvcCloudFront.cs:119-124 | skipped streams leave their key's Base64 digest as it was |
| Diff.LastIncludedDigest | src/PvcCloudFront.cs:119 | the Base64 digest left for an included key is that of the last included stream with the key |
| Diff.IncludedKeyHasDigest | src/PvcCloudFront.cs:114-119 | every included key has a Base64 digest recorded, so the keyMD5Sums lookup of the upload loop always succeeds |
| Diff.DuplicateKeyCarriesLaterDigest | src/PvcCloudFront.cs:114-119 | two new streams under one key with different bytes are both included, and the key's Base64 digest ends up being the second's |
| Streams.PvcStream.ReadToEnd | src/PvcCloudFront.cs:110 | hashing reads what is left of the stream and leaves it at its end |
| Streams.PvcStream.ResetStreamPosition | src/PvcCloudFront.cs:126 | after the rewind the stream stands at 0 and reading it yields all its bytes |
| Plugin.RemainingIsHashed | src/PvcCloudFront.cs:110-126 | the bytes hashed for stream n are what is left of it from its entry position, or all of it when the same object came earlier and was rewound |
| Plugin.UnchangedRunPublishesNothing | src/PvcCloudFront.cs:114-123 | when the bucket already records every stream's digest, the plan of uploads is empty (so no invalidation is sent) and the dictionaries stay as they were |
| Plugin.SecondLoadFails | src/PvcCloudFront.cs:101-104 | after a first run loaded a non-empty listing and ran the rule, loading the same listing again throws on its first key |
| Plugin.PvcCloudFront.constructor | src/PvcCloudFront.cs:40-73 | the max-ages are stored as their decimal text, both dictionaries start empty, and nothing has been sent |
| Plugin.PvcCloudFront.LoadIndex | src/PvcCloudFront.cs:101-104 | keyEtags becomes the result of adding every listed object; on a key already present the loop stops with that key and the entries added so far |
| Plugin.PvcCloudFront.CheckStream | src/PvcCloudFront.cs:108-126 | the stream is included exactly when the rule says so; both dictionaries take the rule's new state; the stream is rewound |
| Plugin.PvcCloudFront.FilterStreams | src/PvcCloudFront.cs:106-128 | the returned list is the streams the rule includes, in order; the dictionaries are the fold of the rule over all streams; every included key has a Content-MD5; every stream stands at 0 |
| Plugin.PvcCloudFront.FilterStep | src/PvcCloudFront.cs:106-127 | one stream more has gone through the rule, with the selection, the dictionaries and the rewinds kept in step |
| Plugin.PvcCloudFront.FilterUploadedFiles | src/PvcCloudFront.cs:93-129 | a duplicate listed key aborts before any stream is touched; otherwise the filtered streams and the new dictionaries are those of the rule applied after the listing load |
| Plugin.PvcCloudFront.UploadStream | src/PvcCloudFront.cs:148-166 | one upload request with the stream's key, the recorded Content-MD5 and the headers its tags call for is sent; it fails exactly when its key is one whose upload throws |
| Plugin.PvcCloudFront.UploadFiltered | src/PvcCloudFront.cs:143-167 | the requests sent are those of the plan up to the first that throws; without a failure the paths are "/" + key of each planned upload |
| Plugin.PvcCloudFront.UploadStep | src/PvcCloudFront.cs:145-166 | one stream more of the upload loop: nameless streams are passed over; a throwing upload ends the run with the plan's attempted prefix |
| Plugin.PvcCloudFront.PublishFiltered | src/PvcCloudFront.cs:143-189 | an upload that throws aborts with its key and sends no invalidation; with no upload no invalidation is sent; otherwise exactly one invalidation carrying the paths and their count is sent; CloudFront errors are reported, never thrown, and any other exception aborts the run |
| Plugin.PvcCloudFront.Execute | src/PvcCloudFront.cs:131-192 | the whole run: a duplicate listed key aborts with no stream moved and nothing sent; otherwise the dictionaries are the rule's fold after loading, every stream is rewound by the filter, and the uploads, invalidation and report are as for PublishFiltered; a completed run returns the input streams unchanged |
| Publish.HeadersFor | src/PvcCloudFront.cs:156-164 | defines the headers: ".html" gets the HTML max-age and text/html, anything else the default max-age and no Content-Type |
| Publish.UploadFor | src/PvcCloudFront.cs:148-164 | defines one upload request: bucket, key, stream, the Content-MD5 recorded for the key and HeadersFor |
| Publish.Plan | src/PvcCloudFront.cs:143-166 | defines the upload requests of the loop, one per stream with a non-empty name |
| Publish.InvalidationRequestFor | src/PvcCloudFront.cs:137-171 | defines the invalidation request: the distribution, the caller reference, the paths and Quantity equal to their count |
| Publish.RunUploads | src/PvcCloudFront.cs:166 | defines which requests are handed to Upload: all of them up to and including the first whose upload throws |
| Publish.ReportFor | src/PvcCloudFront.cs:172-184 | defines the try/catch: a created invalidation, the throttling error and any other CloudFront error become reports, and any other exception escapes |
| Publish.PathsStep | src/PvcCloudFront.cs:154 | one more upload adds "/" + its key at the end of the paths |
| Publish.PlanFollowsNamed | src/PvcCloudFront.cs:143-154 | the plan has one request per stream with a non-empty name, in the same order |
| Publish.PathsOfPlan | src/PvcCloudFront.cs:143-154 | the invalidation paths are "/" + key of each stream with a non-empty name, in filtered order |
| Publish.NamedMembers | src/PvcCloudFront.cs:145-146 | the streams kept are exactly those with a non-empty name |
| Publish.PlanRequests | src/PvcCloudFront.cs:148-164 | every request is for a named stream under its backslash-free key, in the plugin's bucket, with the recorded Content-MD5; ".html" gets the HTML max-age and text/html, anything else the default max-age and no Content-Type |
| Publish.FirstFailureEndsRun | src/PvcCloudFront.cs:166 | when the uploads before stream i succeed and stream i's throws, the attempted uploads are the plan of the first i+1 streams |
| Publish.RunUploadsAll | src/PvcCloudFront.cs:143-167 | when no upload throws every planned request is attempted and no key is reported |
| Publish.RunUploadsStops | src/PvcCloudFront.cs:166 | when some upload throws, the attempted requests are a prefix of the plan that ends at the first throwing one, whose key is reported |
| Publish.RunUploadsAfterSuccesses | src/PvcCloudFront.cs:166 | uploads that succeed are attempted ahead of whatever follows them |

## Left out

- AWS client construction, the credentials and the `GetDistribution` existence check (src/PvcCloudFront.cs:57-68) are calls into the AWS SDK over the network, so they are not modelled. The region endpoint is not modelled either.
- `ListObjects`, `TransferUtility.Upload` and `CreateInvalidation` are transport calls. They become the `listing`, `failingUploads` and `cloudFront` parameters. A `ListObjects` that throws is not modelled.
- MD5 and `Convert.ToBase64String` are library code. They are functions supplied at construction, with MD5 yielding 16 bytes.
- Text.IntToDecimal: it writes '-' before a negative value. `int.ToString()` takes its negative sign from the current culture, which is not modelled.
- Multipart uploads are not modelled. S3 gives an object uploaded in several parts an ETag that is not its MD5 in hex. Such a file never matches its digest, so it is uploaded on every run.
- `GetHttpDate` reads the wall clock. It is the `callerReference` parameter.
- Console output is not modelled. Which branch of the invalidation step ran is returned as an `InvalidationReport` instead.
- The static default fields and the constructor's null fallbacks (src/PvcCloudFront.cs:21-25, 49-53) are plain configuration. The constructor takes the values directly.
- Null stream names are not modelled. `StreamNameToKey` would throw on one before the null check in `Execute` runs, so names are strings and only the empty name is filtered.
- Plugin.PvcCloudFront.Execute: its clause that every stream ends at position 0 holds only because `Upload` is not modelled. `FilterUploadedFiles` does rewind every stream, but `Upload` then reads each uploaded stream before `Execute` returns.
- Plugin.PvcCloudFront.CheckStream: does not model an unreadable stream. `ComputeHash` would throw there, and the exception would escape `Execute`. `Streams.PvcStream.ReadToEnd` always succeeds.
- Plugin.PvcCloudFront.UploadStream: whether an upload throws depends only on its key (`failingUploads`), not on its bytes or headers, and the exception's kind is not modelled.
- Plugin.PvcCloudFront.UploadStream: does not model what `Upload` does to the stream's read position. That behaviour belongs to the transfer library, which is not part of this model.
- `PvcStream` is not part of this model beyond its name, tags, bytes and read position. Hashing reads to the end, and `ResetStreamPosition` sets the position to 0.
- The loop bodies of `FilterUploadedFiles` and `Execute` are written as helper methods: `FilterStep`, `CheckStream`, `UploadStep` and `UploadStream`. The loops call them once per stream.
- Publish.UploadFor: uses an empty Content-MD5 when the key has no recorded digest. `Execute` never reaches that case, because every included key has one (`Diff.IncludedKeyHasDigest`). The C# code would throw there instead.
