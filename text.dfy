/**
 * The string helpers the plugin relies on: `StreamNameToKey`
 * (`String.Replace('\\', '/')`), `String.Trim('"')` applied to ETags, and
 * `int.ToString()` applied to the two max-age settings.
 */
module Text {
  import opened Seqs

  /** The character `Replace('\\', '/')` puts at one position. */
  function Slashed(c: char): char {
    if c == '\\' then '/' else c
  }

  /** The S3 key of a stream: its name with every backslash turned into a slash. */
  function StreamNameToKey(streamName: string): string {
    if streamName == [] then ""
    else StreamNameToKey(streamName[..|streamName| - 1]) + [Slashed(streamName[|streamName| - 1])]
  }

  /** The key is as long as the name, with a slash wherever the name has a
      backslash and the name's character everywhere else. */
  lemma {:induction false} KeyReplacesBackslashes(streamName: string)
    ensures |StreamNameToKey(streamName)| == |streamName|
    ensures forall i :: 0 <= i < |streamName| ==>
      StreamNameToKey(streamName)[i] == (if streamName[i] == '\\' then '/' else streamName[i])
  {
    if streamName != [] {
      var n := |streamName| - 1;
      KeyReplacesBackslashes(streamName[..n]);
      assert forall i :: 0 <= i < n ==> streamName[..n][i] == streamName[i];
    }
  }

  lemma KeyHasNoBackslash(streamName: string)
    ensures '\\' !in StreamNameToKey(streamName)
  {
    KeyReplacesBackslashes(streamName);
  }

  /** A name that already uses only forward slashes is its own key. */
  lemma KeyOfSlashFreeName(streamName: string)
    requires '\\' !in streamName
    ensures StreamNameToKey(streamName) == streamName
  {
    KeyReplacesBackslashes(streamName);
  }

  lemma KeyIdempotent(streamName: string)
    ensures StreamNameToKey(StreamNameToKey(streamName)) == StreamNameToKey(streamName)
  {
    KeyHasNoBackslash(streamName);
    KeyOfSlashFreeName(StreamNameToKey(streamName));
  }

  /** `Trim('"')` from the front: drops every leading quote. */
  function TrimStartQuotes(s: string): (r: string)
    ensures |r| <= |s|
  {
    if s != [] && s[0] == '"' then TrimStartQuotes(s[1..]) else s
  }

  /** `Trim('"')` from the back: drops every trailing quote. */
  function TrimEndQuotes(s: string): string {
    if s != [] && s[|s| - 1] == '"' then TrimEndQuotes(s[..|s| - 1]) else s
  }

  /** Trimming the front leaves a suffix not starting with a quote, and only quotes
      are dropped. */
  lemma {:induction false} TrimStartSuffix(s: string)
    ensures var r := TrimStartQuotes(s);
      && r == s[|s| - |r|..]
      && (forall k :: 0 <= k < |s| - |r| ==> s[k] == '"')
      && (r != [] ==> r[0] != '"')
  {
    if s != [] && s[0] == '"' {
      TrimStartSuffix(s[1..]);
      forall k | 1 <= k < |s| - |TrimStartQuotes(s)|
        ensures s[k] == '"'
      {
        assert s[k] == s[1..][k - 1];
      }
    }
  }

  /** Trimming the back leaves a prefix not ending with a quote, and only quotes
      are dropped. */
  lemma {:induction false} TrimEndPrefix(s: string)
    ensures var r := TrimEndQuotes(s);
      && |r| <= |s| && r == s[..|r|]
      && (forall k :: |r| <= k < |s| ==> s[k] == '"')
      && (r != [] ==> r[|r| - 1] != '"')
  {
    if s != [] && s[|s| - 1] == '"' {
      var p := s[..|s| - 1];
      TrimEndPrefix(p);
      forall k | |TrimEndQuotes(s)| <= k < |p|
        ensures s[k] == '"'
      {
        assert s[k] == p[k];
      }
    }
  }

  /** How many quotes `Trim('"')` removes from the front of s. */
  function LeadingQuotes(s: string): nat {
    |s| - |TrimStartQuotes(s)|
  }

  /** `s.Trim('"')`: leading quotes off, then trailing quotes off. */
  function TrimQuotes(s: string): string {
    TrimEndQuotes(TrimStartQuotes(s))
  }

  /** What is left does not start or end with a quote. */
  lemma TrimQuotesUnquoted(s: string)
    ensures TrimQuotes(s) != [] ==> TrimQuotes(s)[0] != '"' && TrimQuotes(s)[|TrimQuotes(s)| - 1] != '"'
  {
    var t := TrimStartQuotes(s);
    TrimStartSuffix(s);
    TrimEndPrefix(t);
    if TrimQuotes(s) != [] {
      assert TrimQuotes(s)[0] == t[0];
    }
  }

  /** What is left is a slice of s, and everything cut off on either side of it is
      a quote; quotes inside are kept. */
  lemma TrimQuotesSlice(s: string)
    ensures LeadingQuotes(s) + |TrimQuotes(s)| <= |s|
    ensures TrimQuotes(s) == s[LeadingQuotes(s)..LeadingQuotes(s) + |TrimQuotes(s)|]
    ensures forall k :: 0 <= k < LeadingQuotes(s) ==> s[k] == '"'
    ensures forall k :: LeadingQuotes(s) + |TrimQuotes(s)| <= k < |s| ==> s[k] == '"'
  {
    var t := TrimStartQuotes(s);
    var r := TrimEndQuotes(t);
    TrimStartSuffix(s);
    TrimEndPrefix(t);
    SliceOfSuffix(s, LeadingQuotes(s), t, r);
  }

  /** A value without surrounding quotes is left as it is. */
  lemma TrimQuotesKeepsUnquoted(s: string)
    requires s != [] ==> s[0] != '"' && s[|s| - 1] != '"'
    ensures TrimQuotes(s) == s
  {
  }

  /** The usual ETag shape: one pair of quotes around a digest. */
  lemma TrimQuotesOfQuoted(x: string)
    requires x != [] ==> x[0] != '"' && x[|x| - 1] != '"'
    ensures TrimQuotes("\"" + x + "\"") == x
  {
    var s := "\"" + x + "\"";
    var t := x + "\"";
    assert s[1..] == t;
    assert t[..|t| - 1] == x;
    assert TrimEndQuotes(t) == TrimEndQuotes(x) == x;
    if x == [] {
      assert TrimStartQuotes(t) == [];
    } else {
      assert TrimStartQuotes(s) == TrimStartQuotes(t) == t;
    }
  }

  lemma TrimQuotesIdempotent(s: string)
    ensures TrimQuotes(TrimQuotes(s)) == TrimQuotes(s)
  {
    TrimQuotesUnquoted(s);
    TrimQuotesKeepsUnquoted(TrimQuotes(s));
  }

  /** Decimal digits of a natural number, most significant first, no leading zero. */
  function NatToDecimal(n: nat): string {
    if n < 10 then [('0' as int + n) as char]
    else NatToDecimal(n / 10) + [('0' as int + n % 10) as char]
  }

  /** `int.ToString()`: the digits, after a '-' for a negative value.  `ToString()`
      uses the current culture, whose negative sign is taken to be '-'. */
  function IntToDecimal(n: int): string {
    if n < 0 then "-" + NatToDecimal(-n) else NatToDecimal(n)
  }

  /** The value of a string of decimal digits. */
  function DecimalValue(s: string): int {
    if s == [] then 0 else DecimalValue(s[..|s| - 1]) * 10 + (s[|s| - 1] as int - '0' as int)
  }

  /** NatToDecimal writes only digits, the first not a zero unless n is 0, and
      reading the digits back gives n. */
  lemma {:induction false} NatToDecimalRoundTrip(n: nat)
    ensures forall c :: c in NatToDecimal(n) ==> '0' <= c <= '9'
    ensures NatToDecimal(n)[0] != '0' || n == 0
    ensures DecimalValue(NatToDecimal(n)) == n
  {
    if n >= 10 {
      NatToDecimalRoundTrip(n / 10);
      var s := NatToDecimal(n);
      assert s[..|s| - 1] == NatToDecimal(n / 10);
    }
  }

  /** The two default max-age settings, 300 and 60, render as "300" and "60". */
  lemma DefaultMaxAges()
    ensures IntToDecimal(300) == "300"
    ensures IntToDecimal(60) == "60"
  {
    assert NatToDecimal(3) == "3";
    assert NatToDecimal(30) == "30";
    assert NatToDecimal(6) == "6";
  }
}
