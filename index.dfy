/**
 * Loading the bucket listing into `keyEtags` (PvcCloudFront.cs, the first loop of
 * `FilterUploadedFiles`): every listed object is added under its key with its
 * ETag stripped of quotes.  `Dictionary.Add` throws when the key is already
 * present, which aborts the run with the entries added so far left in place.
 */
module Index {
  import opened Text

  /** One entry of the `ListObjects` response. */
  datatype S3Object = S3Object(Key: string, ETag: string)

  datatype LoadResult =
    | Loaded(etags: map<string, string>)
    | DuplicateKey(key: string, partial: map<string, string>)

  /** `keyEtags.Add(o.Key, o.ETag.Trim('"'))` for each listed object in turn. */
  function LoadListing(etags: map<string, string>, listing: seq<S3Object>): LoadResult
    decreases |listing|
  {
    if listing == [] then Loaded(etags)
    else if listing[0].Key in etags then DuplicateKey(listing[0].Key, etags)
    else LoadListing(etags[listing[0].Key := TrimQuotes(listing[0].ETag)], listing[1..])
  }

  /** No listed key is already recorded, and no key is listed twice. */
  predicate FreshKeys(etags: map<string, string>, listing: seq<S3Object>) {
    && (forall i :: 0 <= i < |listing| ==> listing[i].Key !in etags)
    && (forall i, j :: 0 <= i < j < |listing| ==> listing[i].Key != listing[j].Key)
  }

  lemma FreshKeysStep(etags: map<string, string>, listing: seq<S3Object>, etag: string)
    requires listing != []
    ensures FreshKeys(etags, listing)
       <==> listing[0].Key !in etags && FreshKeys(etags[listing[0].Key := etag], listing[1..])
  {
    var k, rest := listing[0].Key, listing[1..];
    var next := etags[k := etag];
    assert forall i :: 0 <= i < |rest| ==> rest[i] == listing[i + 1];
    if k !in etags && FreshKeys(next, rest) {
      forall i, j | 0 <= i < j < |listing|
        ensures listing[i].Key != listing[j].Key
      {
        assert listing[j] == rest[j - 1];
        if i > 0 { assert listing[i] == rest[i - 1]; }
      }
      forall i | 0 <= i < |listing|
        ensures listing[i].Key !in etags
      {
        if i > 0 { assert listing[i] == rest[i - 1]; }
      }
    }
  }

  /** Loading succeeds exactly when every listed key is new. */
  lemma {:induction false} LoadSucceedsIff(etags: map<string, string>, listing: seq<S3Object>)
    ensures LoadListing(etags, listing).Loaded? <==> FreshKeys(etags, listing)
    decreases |listing|
  {
    if listing != [] {
      var o := listing[0];
      FreshKeysStep(etags, listing, TrimQuotes(o.ETag));
      if o.Key !in etags {
        LoadSucceedsIff(etags[o.Key := TrimQuotes(o.ETag)], listing[1..]);
      }
    }
  }

  /** The keys the listing names. */
  function ListedKeys(listing: seq<S3Object>): set<string> {
    set i | 0 <= i < |listing| :: listing[i].Key
  }

  lemma ListedKeysStep(listing: seq<S3Object>)
    requires listing != []
    ensures ListedKeys(listing) == {listing[0].Key} + ListedKeys(listing[1..])
  {
    forall i | 0 <= i < |listing|
      ensures listing[i].Key in {listing[0].Key} + ListedKeys(listing[1..])
    {
      if i > 0 { assert listing[1..][i - 1] == listing[i]; }
    }
  }

  /** A successful load records exactly the keys recorded before and the listed ones. */
  lemma {:induction false} LoadedKeys(etags: map<string, string>, listing: seq<S3Object>)
    requires LoadListing(etags, listing).Loaded?
    ensures LoadListing(etags, listing).etags.Keys == etags.Keys + ListedKeys(listing)
    decreases |listing|
  {
    if listing != [] {
      var o := listing[0];
      LoadedKeys(etags[o.Key := TrimQuotes(o.ETag)], listing[1..]);
      ListedKeysStep(listing);
    }
  }

  /** A successful load leaves what was recorded before as it was. */
  lemma {:induction false} LoadedKeepsOld(etags: map<string, string>, listing: seq<S3Object>)
    requires LoadListing(etags, listing).Loaded?
    ensures forall k :: k in etags ==>
      k in LoadListing(etags, listing).etags && LoadListing(etags, listing).etags[k] == etags[k]
    decreases |listing|
  {
    if listing != [] {
      var o := listing[0];
      LoadedKeepsOld(etags[o.Key := TrimQuotes(o.ETag)], listing[1..]);
    }
  }

  /** After a successful load each listed key maps to its ETag without quotes. */
  lemma {:induction false} LoadedValues(etags: map<string, string>, listing: seq<S3Object>)
    requires LoadListing(etags, listing).Loaded?
    ensures forall i :: 0 <= i < |listing| ==>
      var loaded := LoadListing(etags, listing).etags;
      listing[i].Key in loaded && loaded[listing[i].Key] == TrimQuotes(listing[i].ETag)
    decreases |listing|
  {
    if listing != [] {
      var o := listing[0];
      var next := etags[o.Key := TrimQuotes(o.ETag)];
      LoadedValues(next, listing[1..]);
      LoadedKeepsOld(next, listing[1..]);
      forall i | 0 < i < |listing|
        ensures listing[1..][i - 1] == listing[i]
      {
      }
    }
  }

  /** `keyEtags` is never cleared, so loading the same non-empty listing a second
      time on the same instance fails on the first listed key. */
  lemma ReloadFails(etags: map<string, string>, listing: seq<S3Object>)
    requires listing != []
    requires LoadListing(etags, listing).Loaded?
    ensures LoadListing(LoadListing(etags, listing).etags, listing)
         == DuplicateKey(listing[0].Key, LoadListing(etags, listing).etags)
  {
    LoadedValues(etags, listing);
  }
}
