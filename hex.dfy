/** Bytes and their lower-case hexadecimal rendering, as the payment verifier builds it:
    `Array.from(bytes).map(b => b.toString(16).padStart(2, '0')).join('')`. */
module Hex {
  import opened Wrappers

  /** An element of a `Uint8Array`. */
  type byte = x: int | 0 <= x < 256

  /** The digit `Number.prototype.toString(16)` writes for a value below 16. */
  function HexDigit(d: nat): (c: char)
    requires d < 16
    ensures IsLowerHexDigit(c)
  {
    if d < 10 then ('0' as int + d) as char else ('a' as int + d - 10) as char
  }

  predicate IsLowerHexDigit(c: char) {
    '0' <= c <= '9' || 'a' <= c <= 'f'
  }

  predicate IsLowerHex(s: string) {
    forall k :: 0 <= k < |s| ==> IsLowerHexDigit(s[k])
  }

  /** `n.toString(16)` for a non-negative integer. */
  function ToBase16(n: nat): (r: string)
    ensures |r| >= 1 && IsLowerHex(r)
  {
    if n < 16 then [HexDigit(n)] else ToBase16(n / 16) + [HexDigit(n % 16)]
  }

  function Repeat(c: char, n: nat): (r: string)
    ensures |r| == n && forall k :: 0 <= k < n ==> r[k] == c
  {
    if n == 0 then [] else [c] + Repeat(c, n - 1)
  }

  /** `s.padStart(width, pad)` for a one-character pad string. */
  function PadStart(s: string, width: nat, pad: char): (r: string)
    ensures |r| == if |s| >= width then |s| else width
    ensures r[|r| - |s|..] == s
    ensures forall k :: 0 <= k < |r| - |s| ==> r[k] == pad
  {
    if |s| >= width then s else Repeat(pad, width - |s|) + s
  }

  /** One byte's rendering. */
  function ByteToHex(b: byte): string {
    PadStart(ToBase16(b), 2, '0')
  }

  /** A byte's two digits, high nibble first. */
  function HexPair(b: byte): (r: string)
    ensures |r| == 2
  {
    [HexDigit(b / 16), HexDigit(b % 16)]
  }

  /** Every byte is written as exactly two digits, high nibble first. */
  lemma ByteToHexDigits(b: byte)
    ensures ByteToHex(b) == HexPair(b)
  {
    if b < 16 {
      assert ToBase16(b) == [HexDigit(b)];
      assert ByteToHex(b) == Repeat('0', 1) + [HexDigit(b)];
    } else {
      assert ToBase16(b / 16) == [HexDigit(b / 16)];
    }
  }

  /** The `join('')` of the rendered bytes, each written as its `HexPair`, which is
      what `ByteToHex` renders (`ByteToHexDigits`). */
  function HexEncode(bs: seq<byte>): string {
    if bs == [] then "" else HexPair(bs[0]) + HexEncode(bs[1..])
  }

  /** The encoding has two lower-case digits per byte. */
  lemma {:induction false} HexEncodeLength(bs: seq<byte>)
    ensures |HexEncode(bs)| == 2 * |bs| && IsLowerHex(HexEncode(bs))
  {
    if bs != [] {
      HexEncodeLength(bs[1..]);
      var h := HexPair(bs[0]);
      var t := HexEncode(bs[1..]);
      forall k | 0 <= k < |h + t| ensures IsLowerHexDigit((h + t)[k]) {
        if k >= 2 { assert (h + t)[k] == t[k - 2]; }
      }
    }
  }

  lemma {:induction false} HexEncodeSize(bs: seq<byte>)
    ensures |HexEncode(bs)| == 2 * |bs|
  {
    if bs != [] {
      HexEncodeSize(bs[1..]);
    }
  }

  /** Digits `2i` and `2i+1` of the encoding are the high and the low nibble of byte `i`. */
  lemma {:induction false} HexEncodeAt(bs: seq<byte>, i: nat)
    requires i < |bs|
    ensures |HexEncode(bs)| == 2 * |bs|
    ensures HexEncode(bs)[2 * i] == HexDigit(bs[i] / 16)
    ensures HexEncode(bs)[2 * i + 1] == HexDigit(bs[i] % 16)
  {
    HexEncodeSize(bs);
    var h := HexPair(bs[0]);
    var t := HexEncode(bs[1..]);
    assert HexEncode(bs) == h + t;
    if i > 0 {
      HexEncodeAt(bs[1..], i - 1);
      assert bs[1..][i - 1] == bs[i];
      assert (h + t)[2 * i] == t[2 * (i - 1)];
      assert (h + t)[2 * i + 1] == t[2 * (i - 1) + 1];
    }
  }

  /** The value of a lower-case hexadecimal digit. */
  function HexValue(c: char): (d: nat)
    requires IsLowerHexDigit(c)
    ensures d < 16
  {
    if c <= '9' then c as int - '0' as int else c as int - 'a' as int + 10
  }

  /** Reads a lower-case hexadecimal string back as bytes; `None` for an odd length or a
      character that is not a lower-case digit. */
  function HexDecode(s: string): Option<seq<byte>>
    decreases |s|
  {
    if s == [] then Some([])
    else if |s| < 2 || !IsLowerHexDigit(s[0]) || !IsLowerHexDigit(s[1]) then None
    else match HexDecode(s[2..])
      case None => None
      case Some(rest) => Some([HexValue(s[0]) * 16 + HexValue(s[1])] + rest)
  }

  lemma HexValueOfDigit(d: nat)
    requires d < 16
    ensures HexValue(HexDigit(d)) == d
  {
  }

  /** Reading back the two digits of one byte gives the byte. */
  lemma ByteFromDigits(b: byte)
    ensures HexValue(HexDigit(b / 16)) * 16 + HexValue(HexDigit(b % 16)) == b
  {
    HexValueOfDigit(b / 16);
    HexValueOfDigit(b % 16);
  }

  /** The rendering loses nothing: the bytes can be read back from it. */
  lemma {:induction false} HexRoundTrip(bs: seq<byte>)
    ensures HexDecode(HexEncode(bs)) == Some(bs)
  {
    if bs != [] {
      HexRoundTrip(bs[1..]);
      ByteFromDigits(bs[0]);
      var t := HexEncode(bs[1..]);
      var s := [HexDigit(bs[0] / 16), HexDigit(bs[0] % 16)] + t;
      assert HexEncode(bs) == s;
      assert s[2..] == t;
      assert HexDecode(s) == Some([bs[0]] + bs[1..]);
      assert bs == [bs[0]] + bs[1..];
    }
  }

  /** Hence two digests are rendered alike only when they are equal. */
  lemma HexEncodeInjective(a: seq<byte>, b: seq<byte>)
    requires HexEncode(a) == HexEncode(b)
    ensures a == b
  {
    HexRoundTrip(a);
    HexRoundTrip(b);
  }
}
