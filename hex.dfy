/**
 * Base16 rendering of the MD5 digest (`ToHex` in PvcCloudFront.cs): each byte
 * becomes two hex digits, high nibble first, using the format "x2" (lower case)
 * or "X2" (upper case).  The lower-case form is the alphabet of section 8 of
 * RFC 4648 written in lower case, which is the form S3 uses for the ETag of an
 * object uploaded in a single part (the ETag of a multipart upload is not an MD5
 * in hex, so it never equals this rendering).
 */
module Hex {
  import opened Wrappers
  import opened Seqs

  newtype byte = b: int | 0 <= b < 256

  /** The digit of a nibble value: '0'..'9', then 'a'..'f' or 'A'..'F'. */
  function HexDigit(n: int, upperCase: bool): char
    requires 0 <= n < 16
  {
    if n < 10 then ('0' as int + n) as char
    else if upperCase then ('A' as int + n - 10) as char
    else ('a' as int + n - 10) as char
  }

  predicate IsLowerHexDigit(c: char) {
    '0' <= c <= '9' || 'a' <= c <= 'f'
  }

  /** The value of a hex digit of either case; None for any other character. */
  function DigitValue(c: char): Option<int> {
    if '0' <= c <= '9' then Some(c as int - '0' as int)
    else if 'a' <= c <= 'f' then Some(c as int - 'a' as int + 10)
    else if 'A' <= c <= 'F' then Some(c as int - 'A' as int + 10)
    else None
  }

  /** `b.ToString("x2")` / `b.ToString("X2")`. */
  function ByteToHex(b: byte, upperCase: bool): string {
    [HexDigit(b as int / 16, upperCase), HexDigit(b as int % 16, upperCase)]
  }

  /** The text a StringBuilder holds after appending ByteToHex of each byte in turn. */
  function Base16(bytes: seq<byte>, upperCase: bool): string {
    if bytes == [] then ""
    else Base16(bytes[..|bytes| - 1], upperCase) + ByteToHex(bytes[|bytes| - 1], upperCase)
  }

  /** Decodes a hex string of either case, two digits per byte; None when the
      length is odd or a character is not a hex digit. */
  function FromHex(s: string): Option<seq<byte>> {
    if s == [] then Some([])
    else if |s| < 2 then None
    else
      var prefix, hi, lo := FromHex(s[..|s| - 2]), DigitValue(s[|s| - 2]), DigitValue(s[|s| - 1]);
      if prefix.Some? && hi.Some? && lo.Some? && 0 <= hi.value < 16 && 0 <= lo.value < 16
      then Some(prefix.value + [(hi.value * 16 + lo.value) as byte])
      else None
  }

  /** The loop of `ToHex`: appends two digits per byte to an initially empty builder. */
  method ToHex(bytes: seq<byte>, upperCase: bool) returns (r: string)
    ensures r == Base16(bytes, upperCase)
  {
    r := "";
    for i := 0 to |bytes|
      invariant r == Base16(bytes[..i], upperCase)
    {
      assert bytes[..i + 1][..i] == bytes[..i];
      r := r + ByteToHex(bytes[i], upperCase);
    }
    assert bytes[..|bytes|] == bytes;
  }

  /** Twice as many characters as bytes; characters 2i and 2i+1 are the high and
      low nibble of byte i. */
  lemma {:induction false} Base16Layout(bytes: seq<byte>, upperCase: bool)
    ensures |Base16(bytes, upperCase)| == 2 * |bytes|
    ensures forall i :: 0 <= i < |bytes| ==>
      Base16(bytes, upperCase)[2 * i] == HexDigit(bytes[i] as int / 16, upperCase) &&
      Base16(bytes, upperCase)[2 * i + 1] == HexDigit(bytes[i] as int % 16, upperCase)
  {
    if bytes != [] {
      var n := |bytes| - 1;
      Base16Layout(bytes[..n], upperCase);
      forall i | 0 <= i < |bytes|
        ensures Base16(bytes, upperCase)[2 * i] == HexDigit(bytes[i] as int / 16, upperCase)
        ensures Base16(bytes, upperCase)[2 * i + 1] == HexDigit(bytes[i] as int % 16, upperCase)
      {
        if i < n {
          assert bytes[..n][i] == bytes[i];
        }
      }
    }
  }

  /** With upperCase false every character is one of 0-9 a-f. */
  lemma {:induction false} Base16IsLowerCase(bytes: seq<byte>)
    ensures forall c :: c in Base16(bytes, false) ==> IsLowerHexDigit(c)
  {
    if bytes != [] {
      var n := |bytes| - 1;
      Base16IsLowerCase(bytes[..n]);
      var b := bytes[n] as int;
      assert IsLowerHexDigit(HexDigit(b / 16, false)) && IsLowerHexDigit(HexDigit(b % 16, false));
      assert Base16(bytes, false) == Base16(bytes[..n], false) + [HexDigit(b / 16, false), HexDigit(b % 16, false)];
    }
  }

  lemma DigitRoundTrip(n: int, upperCase: bool)
    requires 0 <= n < 16
    ensures DigitValue(HexDigit(n, upperCase)) == Some(n)
  {
  }

  lemma LowerDigitRoundTrip(c: char)
    requires IsLowerHexDigit(c)
    ensures DigitValue(c).Some? && 0 <= DigitValue(c).value < 16
    ensures HexDigit(DigitValue(c).value, false) == c
  {
  }

  /** The last two characters of the encoding are the digits of the last byte. */
  lemma Base16Last(bytes: seq<byte>, upperCase: bool)
    requires bytes != []
    ensures var s, b := Base16(bytes, upperCase), bytes[|bytes| - 1] as int;
      && |s| >= 2
      && s[..|s| - 2] == Base16(bytes[..|bytes| - 1], upperCase)
      && s[|s| - 2] == HexDigit(b / 16, upperCase)
      && s[|s| - 1] == HexDigit(b % 16, upperCase)
  {
    var s, p := Base16(bytes, upperCase), Base16(bytes[..|bytes| - 1], upperCase);
    var d := ByteToHex(bytes[|bytes| - 1], upperCase);
    assert s == p + d;
    assert s[..|s| - 2] == p;
  }

  /** Two more valid digits after a decodable prefix decode to one more byte. */
  lemma FromHexAppend(s: string, prefix: seq<byte>, hi: int, lo: int)
    requires |s| >= 2 && FromHex(s[..|s| - 2]) == Some(prefix)
    requires DigitValue(s[|s| - 2]) == Some(hi) && DigitValue(s[|s| - 1]) == Some(lo)
    requires 0 <= hi < 16 && 0 <= lo < 16
    ensures FromHex(s) == Some(prefix + [(hi * 16 + lo) as byte])
  {
  }

  /** A byte is rebuilt from its two nibbles. */
  lemma SplitByte(x: byte)
    ensures var b := x as int;
      0 <= b / 16 < 16 && 0 <= b % 16 < 16 && (b / 16 * 16 + b % 16) as byte == x
  {
  }

  /** Decoding the encoding gives back the bytes. */
  lemma {:induction false} Base16RoundTrip(bytes: seq<byte>, upperCase: bool)
    ensures FromHex(Base16(bytes, upperCase)) == Some(bytes)
  {
    if bytes != [] {
      var n := |bytes| - 1;
      Base16RoundTrip(bytes[..n], upperCase);
      Base16Last(bytes, upperCase);
      FromHexAppendByte(Base16(bytes, upperCase), bytes[..n], bytes[n], upperCase);
      DropLast(bytes);
    }
  }

  /** The two digits of a byte after a decodable prefix decode to that byte. */
  lemma FromHexAppendByte(s: string, prefix: seq<byte>, x: byte, upperCase: bool)
    requires |s| >= 2 && FromHex(s[..|s| - 2]) == Some(prefix)
    requires s[|s| - 2] == HexDigit(x as int / 16, upperCase) && s[|s| - 1] == HexDigit(x as int % 16, upperCase)
    ensures FromHex(s) == Some(prefix + [x])
  {
    var b := x as int;
    SplitByte(x);
    DigitRoundTrip(b / 16, upperCase);
    DigitRoundTrip(b % 16, upperCase);
    FromHexAppend(s, prefix, b / 16, b % 16);
  }

  lemma Nibbles(hi: int, lo: int)
    requires 0 <= hi < 16 && 0 <= lo < 16
    ensures (hi * 16 + lo) / 16 == hi && (hi * 16 + lo) % 16 == lo
  {
  }

  /** A string decodes only if the string without its last two characters does. */
  lemma FromHexPrefix(s: string)
    requires |s| >= 2 && FromHex(s).Some?
    ensures FromHex(s[..|s| - 2]).Some?
  {
  }

  /** A lower-case hex string decodes exactly when its length is even. */
  lemma {:induction false} FromHexLength(s: string)
    requires forall c :: c in s ==> IsLowerHexDigit(c)
    ensures FromHex(s).Some? <==> |s| % 2 == 0
  {
    if |s| >= 2 {
      var p := s[..|s| - 2];
      assert forall c :: c in p ==> c in s;
      FromHexLength(p);
      LowerDigitRoundTrip(s[|s| - 2]);
      LowerDigitRoundTrip(s[|s| - 1]);
      if FromHex(p).Some? {
        FromHexAppend(s, FromHex(p).value, DigitValue(s[|s| - 2]).value, DigitValue(s[|s| - 1]).value);
      }
    } else if |s| == 1 {
      assert FromHex(s) == None;
    }
  }

  /** Conversely, every lower-case hex string that decodes is the lower-case
      encoding of what it decodes to. */
  lemma {:induction false} FromHexIsInverse(s: string)
    requires forall c :: c in s ==> IsLowerHexDigit(c)
    requires FromHex(s).Some?
    ensures Base16(FromHex(s).value, false) == s
  {
    if s != [] {
      var p := s[..|s| - 2];
      FromHexPrefix(s);
      assert forall c :: c in p ==> c in s;
      FromHexIsInverse(p);
      LowerDigitRoundTrip(s[|s| - 2]);
      LowerDigitRoundTrip(s[|s| - 1]);
      var hi, lo := DigitValue(s[|s| - 2]).value, DigitValue(s[|s| - 1]).value;
      var prefix := FromHex(p).value;
      var last := (hi * 16 + lo) as byte;
      FromHexAppend(s, prefix, hi, lo);
      Nibbles(hi, lo);
      assert (prefix + [last])[..|prefix|] == prefix;
      assert Base16(prefix + [last], false) == p + ByteToHex(last, false);
      assert ByteToHex(last, false) == [s[|s| - 2], s[|s| - 1]];
      DropLastTwo(s);
    }
  }

  /** Two digests are equal exactly when their hex renderings are equal, so the
      string comparison against an ETag compares digests. */
  lemma Base16Injective(a: seq<byte>, b: seq<byte>, upperCase: bool)
    ensures Base16(a, upperCase) == Base16(b, upperCase) <==> a == b
  {
    Base16RoundTrip(a, upperCase);
    Base16RoundTrip(b, upperCase);
  }
}
