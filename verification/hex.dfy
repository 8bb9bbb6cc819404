/**
  Bytes and their rendering by printf's `%02x` conversion applied to an
  `unsigned char`: always exactly two lower-case hexadecimal digits.
  Also the space-separated hex dump that print_magic builds one entry at a
  time, with a parser for it so that the rendering can be shown to lose
  nothing.
 */
module Hex {
  import opened Wrappers

  /** An `unsigned char`: eight bits, no sign. */
  newtype byte = x: int | 0 <= x < 256

  predicate IsLowerHexDigit(c: char) {
    ('0' <= c <= '9') || ('a' <= c <= 'f')
  }

  /** The digit `%x` writes for a value below sixteen. */
  function HexDigit(n: nat): (c: char)
    requires n < 16
    ensures IsLowerHexDigit(c)
    ensures DigitValue(c) == Some(n)
  {
    if n < 10 then ('0' as int + n) as char else ('a' as int + (n - 10)) as char
  }

  /** The value of a lower-case hex digit; any other character is not one. */
  function DigitValue(c: char): (v: Option<nat>)
    ensures v.Some? <==> IsLowerHexDigit(c)
    ensures v.Some? ==> v.value < 16
  {
    if '0' <= c <= '9' then Some(c as int - '0' as int)
    else if 'a' <= c <= 'f' then Some(c as int - 'a' as int + 10)
    else None
  }

  /** A digit is the only one that `%x` writes for its value. */
  lemma DigitCanonical(c: char, n: nat)
    requires DigitValue(c) == Some(n)
    ensures n < 16 && HexDigit(n) == c
  {
  }

  /** `%02x` of an unsigned char: high nibble first, zero-padded to two digits. */
  function HexPair(b: byte): (s: string)
    ensures |s| == 2 && IsLowerHexDigit(s[0]) && IsLowerHexDigit(s[1])
    ensures ParseHexPair(s) == Some(b)
  {
    [HexDigit(b as int / 16), HexDigit(b as int % 16)]
  }

  /** Reads two lower-case hex digits back as the byte they denote. */
  function ParseHexPair(s: string): (r: Option<byte>)
    ensures r.Some? <==> |s| == 2 && IsLowerHexDigit(s[0]) && IsLowerHexDigit(s[1])
  {
    if |s| != 2 then None
    else match (DigitValue(s[0]), DigitValue(s[1]))
      case (Some(hi), Some(lo)) => Some((16 * hi + lo) as byte)
      case _ => None
  }

  /** Every string the parser accepts is the rendering of the byte it yields,
      so `HexPair` and `ParseHexPair` are inverse bijections between bytes and
      two-digit lower-case hex strings. */
  lemma HexPairCanonical(s: string, b: byte)
    requires ParseHexPair(s) == Some(b)
    ensures HexPair(b) == s
  {
    var hi := DigitValue(s[0]).value;
    var lo := DigitValue(s[1]).value;
    assert b as int == 16 * hi + lo;
    assert b as int / 16 == hi && b as int % 16 == lo;
    DigitCanonical(s[0], hi);
    DigitCanonical(s[1], lo);
  }

  /** The body of the magic line: each byte as `%02x ` (two digits and one
      space), in buffer order. */
  function HexEntries(bs: seq<byte>): (s: string)
    ensures |s| == 3 * |bs|
  {
    if bs == [] then "" else HexEntries(bs[..|bs| - 1]) + HexPair(bs[|bs| - 1]) + " "
  }

  /** Reads a dump written by `HexEntries` back, three characters per byte. */
  function ParseEntries(s: string): (r: Option<seq<byte>>)
    ensures r.Some? ==> 3 * |r.value| == |s|
  {
    if s == [] then Some([])
    else if |s| < 3 || s[|s| - 1] != ' ' then None
    else match (ParseEntries(s[..|s| - 3]), ParseHexPair(s[|s| - 3..|s| - 1]))
      case (Some(bs), Some(b)) => Some(bs + [b])
      case _ => None
  }

  /** Entry `i` of the dump is byte `i` as two hex digits followed by a space. */
  lemma {:induction false} HexEntriesAt(bs: seq<byte>, i: nat)
    requires i < |bs|
    ensures HexEntries(bs)[3 * i..3 * i + 2] == HexPair(bs[i])
    ensures HexEntries(bs)[3 * i + 2] == ' '
  {
    var n := |bs| - 1;
    var prefix := HexEntries(bs[..n]);
    assert HexEntries(bs) == prefix + HexPair(bs[n]) + " ";
    if i < n {
      HexEntriesAt(bs[..n], i);
      assert HexEntries(bs)[3 * i..3 * i + 2] == prefix[3 * i..3 * i + 2];
    } else {
      assert |prefix| == 3 * i;
    }
  }

  /** The parser reads the last three characters of a dump as its last entry. */
  lemma ParseLastEntry(prefix: string, pair: string)
    requires |pair| == 2
    ensures ParseEntries(prefix + pair + " ")
         == match (ParseEntries(prefix), ParseHexPair(pair))
            case (Some(bs), Some(b)) => Some(bs + [b])
            case _ => None
  {
    var s := prefix + pair + " ";
    assert s[..|s| - 3] == prefix;
    assert s[|s| - 3..|s| - 1] == pair;
  }

  /** Parsing a dump gives back the bytes it was rendered from. */
  lemma {:induction false} EntriesRoundTrip(bs: seq<byte>)
    ensures ParseEntries(HexEntries(bs)) == Some(bs)
  {
    if bs != [] {
      var n := |bs| - 1;
      EntriesRoundTrip(bs[..n]);
      ParseLastEntry(HexEntries(bs[..n]), HexPair(bs[n]));
      assert bs[..n] + [bs[n]] == bs;
    }
  }

  /** Only a dump `HexEntries` writes is accepted: the rendering is onto the
      well-formed dumps, not just one-to-one. */
  lemma {:induction false} EntriesCanonical(s: string, bs: seq<byte>)
    requires ParseEntries(s) == Some(bs)
    ensures HexEntries(bs) == s
  {
    if s != [] {
      var prev := ParseEntries(s[..|s| - 3]).value;
      var b := ParseHexPair(s[|s| - 3..|s| - 1]).value;
      assert bs == prev + [b];
      EntriesCanonical(s[..|s| - 3], prev);
      HexPairCanonical(s[|s| - 3..|s| - 1], b);
      assert bs[..|bs| - 1] == prev;
      assert s == s[..|s| - 3] + s[|s| - 3..|s| - 1] + [s[|s| - 1]];
    }
  }
}
