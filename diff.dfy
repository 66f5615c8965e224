/**
 * The include/skip rule of `FilterUploadedFiles` (second loop), as a fold over
 * the streams' keys and digests.  `Tables` is the pair of dictionaries the
 * plugin keeps: `keyEtags` (key to lower-case hex MD5) and `keyMD5Sums` (key to
 * Base64 MD5).  A stream is included when its key is not recorded or is recorded
 * with a different hex digest; an included stream records both digests, a
 * skipped one changes nothing.
 */
module Diff {
  import opened Seqs

  /** The two renderings of one stream's MD5: `ToHex(md5bytes, false)` and
      `Convert.ToBase64String(md5bytes)`. */
  datatype Fingerprint = Fingerprint(hex: string, base64: string)

  /** What the rule looks at for one stream: its key and its fingerprint. */
  datatype Entry = Entry(key: string, fingerprint: Fingerprint)

  datatype Tables = Tables(etags: map<string, string>, md5Sums: map<string, string>)

  /** `!keyEtags.ContainsKey(key) || keyEtags[key] != md5sum` */
  predicate Changed(etags: map<string, string>, e: Entry) {
    e.key !in etags || etags[e.key] != e.fingerprint.hex
  }

  /** The tables after one stream has been looked at. */
  function Record(t: Tables, e: Entry): Tables {
    if Changed(t.etags, e) then
      Tables(t.etags[e.key := e.fingerprint.hex], t.md5Sums[e.key := e.fingerprint.base64])
    else t
  }

  /** The tables after the streams es have been looked at in order. */
  function Replay(t: Tables, es: seq<Entry>): Tables {
    if es == [] then t else Record(Replay(t, es[..|es| - 1]), es[|es| - 1])
  }

  lemma ReplayStep(t: Tables, es: seq<Entry>, n: nat)
    requires n < |es|
    ensures Replay(t, es[..n + 1]) == Record(Replay(t, es[..n]), es[n])
  {
    assert es[..n + 1][..n] == es[..n];
  }

  /** The positions of the streams that are included, in the order they come. */
  function Included(t: Tables, es: seq<Entry>): seq<nat> {
    if es == [] then []
    else
      var n := |es| - 1;
      Included(t, es[..n]) + (if Changed(Replay(t, es[..n]).etags, es[n]) then [n] else [])
  }

  /** Every included position is the position of a stream. */
  lemma {:induction false} IncludedBounded(t: Tables, es: seq<Entry>)
    ensures forall x :: x in Included(t, es) ==> x < |es|
  {
    if es != [] {
      IncludedBounded(t, es[..|es| - 1]);
    }
  }

  /** Stream i is included exactly when, at its turn, its key is absent or is
      recorded with another hex digest. */
  lemma {:induction false} IncludedIff(t: Tables, es: seq<Entry>, i: int)
    ensures i in Included(t, es) <==> 0 <= i < |es| && Changed(Replay(t, es[..i]).etags, es[i])
  {
    if es != [] {
      var n := |es| - 1;
      var prefix := es[..n];
      IncludedIff(t, prefix, i);
      if 0 <= i < n {
        assert prefix[..i] == es[..i] && prefix[i] == es[i];
      }
    }
  }

  /** Included streams keep their input order. */
  lemma {:induction false} IncludedOrdered(t: Tables, es: seq<Entry>)
    ensures forall a, b :: 0 <= a < b < |Included(t, es)| ==> Included(t, es)[a] < Included(t, es)[b]
  {
    if es != [] {
      var n := |es| - 1;
      IncludedOrdered(t, es[..n]);
      IncludedBounded(t, es[..n]);
      var inc := Included(t, es[..n]);
      assert forall a :: 0 <= a < |inc| ==> inc[a] in inc;
    }
  }

  /** Looking at a, then at b, is looking at a + b. */
  lemma {:induction false} ReplayAppend(t: Tables, a: seq<Entry>, b: seq<Entry>)
    ensures Replay(t, a + b) == Replay(Replay(t, a), b)
    decreases |b|
  {
    if b == [] {
      assert a + b == a;
    } else {
      var n := |b| - 1;
      ReplayAppend(t, a, b[..n]);
      assert (a + b)[..|a + b| - 1] == a + b[..n];
    }
  }

  /** The fold over all streams is the fold over those after i, starting from the
      tables the first i + 1 left. */
  lemma ReplaySplit(t: Tables, es: seq<Entry>, i: nat)
    requires i < |es|
    ensures Replay(t, es) == Replay(Replay(t, es[..i + 1]), es[i + 1..])
  {
    SplitAfter(es, i);
    ReplayAppend(t, es[..i + 1], es[i + 1..]);
  }

  /** Right after stream i, `keyEtags[key]` is that stream's hex digest, whether it
      was included or skipped; when included, `keyMD5Sums[key]` is its Base64 digest. */
  lemma DigestRecorded(t: Tables, es: seq<Entry>, i: nat)
    requires i < |es|
    ensures var after := Replay(t, es[..i + 1]);
      && es[i].key in after.etags && after.etags[es[i].key] == es[i].fingerprint.hex
      && (Changed(Replay(t, es[..i]).etags, es[i]) ==>
            es[i].key in after.md5Sums && after.md5Sums[es[i].key] == es[i].fingerprint.base64)
  {
    assert es[..i + 1][..i] == es[..i];
  }

  /** Keys that no stream maps to keep their entries in both tables. */
  lemma {:induction false} ReplayFrame(t: Tables, es: seq<Entry>, k: string)
    requires forall i :: 0 <= i < |es| ==> es[i].key != k
    ensures var r := Replay(t, es);
      && (k in r.etags <==> k in t.etags) && (k in t.etags ==> r.etags[k] == t.etags[k])
      && (k in r.md5Sums <==> k in t.md5Sums) && (k in t.md5Sums ==> r.md5Sums[k] == t.md5Sums[k])
  {
    if es != [] {
      var n := |es| - 1;
      assert forall i :: 0 <= i < n ==> es[..n][i] == es[i];
      ReplayFrame(t, es[..n], k);
    }
  }

  /** Entries are only ever added or overwritten: every key recorded before is
      recorded after, and so is every key looked at. */
  lemma {:induction false} ReplayGrows(t: Tables, es: seq<Entry>)
    ensures t.etags.Keys <= Replay(t, es).etags.Keys
    ensures t.md5Sums.Keys <= Replay(t, es).md5Sums.Keys
    ensures forall i :: 0 <= i < |es| ==> es[i].key in Replay(t, es).etags
  {
    if es != [] {
      var n := |es| - 1;
      ReplayGrows(t, es[..n]);
      assert forall i :: 0 <= i < n ==> es[..n][i] == es[i];
    }
  }

  /** After all streams, a key's recorded hex digest is that of the last stream
      with that key. */
  lemma LastDigestWins(t: Tables, es: seq<Entry>, j: nat)
    requires j < |es|
    requires forall m :: j < m < |es| ==> es[m].key != es[j].key
    ensures es[j].key in Replay(t, es).etags
    ensures Replay(t, es).etags[es[j].key] == es[j].fingerprint.hex
  {
    var head, tail := es[..j + 1], es[j + 1..];
    ReplaySplit(t, es, j);
    DigestRecorded(t, es, j);
    assert forall i :: 0 <= i < |tail| ==> tail[i] == es[j + 1 + i];
    ReplayFrame(Replay(t, head), tail, es[j].key);
  }

  /** A later stream with the same key and the same bytes as the last one before
      it is skipped. */
  lemma RepeatSkipped(t: Tables, es: seq<Entry>, j: nat, i: nat)
    requires j < i < |es|
    requires es[j].key == es[i].key && es[j].fingerprint.hex == es[i].fingerprint.hex
    requires forall m :: j < m < i ==> es[m].key != es[j].key
    ensures i !in Included(t, es)
  {
    LastDigestWins(t, es[..i], j);
    assert es[..i][j] == es[j];
    IncludedIff(t, es, i);
  }

  /** When every key is already recorded with its stream's digest, nothing is
      included and neither table changes. */
  lemma {:induction false} NothingChanged(t: Tables, es: seq<Entry>)
    requires forall i :: 0 <= i < |es| ==> es[i].key in t.etags && t.etags[es[i].key] == es[i].fingerprint.hex
    ensures Included(t, es) == []
    ensures Replay(t, es) == t
  {
    if es != [] {
      var n := |es| - 1;
      assert forall i :: 0 <= i < n ==> es[..n][i] == es[i];
      NothingChanged(t, es[..n]);
    }
  }

  /** Looking again at the same streams (distinct keys) from the tables the
      first pass left includes nothing. */
  lemma SecondPassIncludesNothing(t: Tables, es: seq<Entry>)
    requires forall i, j :: 0 <= i < j < |es| ==> es[i].key != es[j].key
    ensures Included(Replay(t, es), es) == []
    ensures Replay(Replay(t, es), es) == Replay(t, es)
  {
    forall j | 0 <= j < |es|
      ensures es[j].key in Replay(t, es).etags && Replay(t, es).etags[es[j].key] == es[j].fingerprint.hex
    {
      LastDigestWins(t, es, j);
    }
    NothingChanged(Replay(t, es), es);
  }

  /** Streams with key k that are all skipped leave k's Base64 digest as it was. */
  lemma {:induction false} SkippedKeepDigest(u: Tables, es: seq<Entry>, k: string)
    requires forall m :: 0 <= m < |es| && es[m].key == k ==> !Changed(Replay(u, es[..m]).etags, es[m])
    ensures k in Replay(u, es).md5Sums <==> k in u.md5Sums
    ensures k in u.md5Sums ==> Replay(u, es).md5Sums[k] == u.md5Sums[k]
  {
    if es != [] {
      var n := |es| - 1;
      assert forall m :: 0 <= m < n ==> es[..n][m] == es[m] && es[..n][..m] == es[..m];
      SkippedKeepDigest(u, es[..n], k);
    }
  }

  /** The Base64 digest recorded for an included stream's key is that of the last
      included stream with that key. */
  lemma LastIncludedDigest(t: Tables, es: seq<Entry>, i: nat)
    requires i < |es| && i in Included(t, es)
    requires forall m :: i < m < |es| && es[m].key == es[i].key ==> m !in Included(t, es)
    ensures es[i].key in Replay(t, es).md5Sums
    ensures Replay(t, es).md5Sums[es[i].key] == es[i].fingerprint.base64
  {
    IncludedIff(t, es, i);
    DigestRecorded(t, es, i);
    var head, tail := es[..i + 1], es[i + 1..];
    ReplaySplit(t, es, i);
    LaterSameKeySkipped(t, es, i);
    SkippedKeepDigest(Replay(t, head), tail, es[i].key);
  }

  /** Helper: when no later stream with key es[i].key is included, each of them is
      skipped against the tables left by the streams before it. */
  lemma LaterSameKeySkipped(t: Tables, es: seq<Entry>, i: nat)
    requires i < |es|
    requires forall m :: i < m < |es| && es[m].key == es[i].key ==> m !in Included(t, es)
    ensures var u, tail := Replay(t, es[..i + 1]), es[i + 1..];
      forall m :: 0 <= m < |tail| && tail[m].key == es[i].key ==> !Changed(Replay(u, tail[..m]).etags, tail[m])
  {
    var u, tail := Replay(t, es[..i + 1]), es[i + 1..];
    forall m | 0 <= m < |tail| && tail[m].key == es[i].key
      ensures !Changed(Replay(u, tail[..m]).etags, tail[m])
    {
      assert tail[m] == es[i + 1 + m];
      LaterStreamSeesHead(t, es, i, m);
    }
  }

  /** Helper: stream i + 1 + m is judged against the tables left by the first
      i + 1 streams followed by the m streams between. */
  lemma LaterStreamSeesHead(t: Tables, es: seq<Entry>, i: nat, m: nat)
    requires i + 1 + m < |es|
    requires i + 1 + m !in Included(t, es)
    ensures !Changed(Replay(Replay(t, es[..i + 1]), es[i + 1..][..m]).etags, es[i + 1..][m])
  {
    IncludedIff(t, es, i + 1 + m);
    assert es[..i + 1 + m] == es[..i + 1] + es[i + 1..][..m];
    ReplayAppend(t, es[..i + 1], es[i + 1..][..m]);
  }

  /** Every included key has a Base64 digest recorded, so `keyMD5Sums[key]` in
      `Execute` always finds one. */
  lemma IncludedKeyHasDigest(t: Tables, es: seq<Entry>, i: nat)
    requires i < |es| && i in Included(t, es)
    ensures es[i].key in Replay(t, es).md5Sums
  {
    IncludedIff(t, es, i);
    DigestRecorded(t, es, i);
    var head, tail := es[..i + 1], es[i + 1..];
    ReplaySplit(t, es, i);
    ReplayGrows(Replay(t, head), tail);
  }

  /** Two new streams under one key with different bytes are both included, and
      the Base64 digest left for the key is the second one's: the first upload
      under that key is sent with the second stream's Content-MD5. */
  lemma DuplicateKeyCarriesLaterDigest(t: Tables, k: string, first: Fingerprint, second: Fingerprint)
    requires k !in t.etags
    requires first.hex != second.hex
    ensures Included(t, [Entry(k, first), Entry(k, second)]) == [0, 1]
    ensures Replay(t, [Entry(k, first), Entry(k, second)]).md5Sums[k] == second.base64
  {
    var es := [Entry(k, first), Entry(k, second)];
    assert es[..1] == [Entry(k, first)];
    assert es[..1][..0] == [];
    assert Replay(t, es[..1]).etags[k] == first.hex;
    assert Included(t, es[..1]) == [0];
  }
}
