/** Bytes and their hexadecimal text form, as Python's `bytes.hex()` and
    `bytes.fromhex()` produce and read them. */
module Hex {

  datatype Option<+T> = None | Some(value: T)

  /** One octet. */
  type byte = x: int | 0 <= x < 256

  /** The lower-case digit `bytes.hex()` writes for a nibble. */
  function LowerDigit(n: nat): (c: char)
    requires n < 16
    ensures IsLowerDigit(c)
  {
    if n < 10 then ('0' as int + n) as char else ('a' as int + n - 10) as char
  }

  /** True if `c` is a digit `bytes.hex()` can emit (lower-case). */
  predicate IsLowerDigit(c: char) {
    '0' <= c <= '9' || 'a' <= c <= 'f'
  }

  /** The text `bytes.hex()` emits: an even number of lower-case digits. */
  predicate IsLowerHex(s: string) {
    |s| % 2 == 0 && forall i :: 0 <= i < |s| ==> IsLowerDigit(s[i])
  }

  /** The value of one hexadecimal digit of either case, None for any other character. */
  function DigitValue(c: char): (r: Option<nat>)
    ensures r.Some? ==> r.value < 16
    ensures r.Some? <==> ('0' <= c <= '9' || 'a' <= c <= 'f' || 'A' <= c <= 'F')
  {
    if '0' <= c <= '9' then Some(c as int - '0' as int)
    else if 'a' <= c <= 'f' then Some(c as int - 'a' as int + 10)
    else if 'A' <= c <= 'F' then Some(c as int - 'A' as int + 10)
    else None
  }

  /** `bs.hex()`: two lower-case digits per byte, high nibble first. */
  function HexOf(bs: seq<byte>): (s: string)
    ensures |s| == 2 * |bs|
  {
    seq(2 * |bs|, i requires 0 <= i < 2 * |bs| =>
      if i % 2 == 0 then LowerDigit(bs[i / 2] / 16) else LowerDigit(bs[i / 2] % 16))
  }

  /** True if every character of `s` is a hexadecimal digit of either case. */
  predicate AllDigits(s: string) {
    forall i :: 0 <= i < |s| ==> DigitValue(s[i]).Some?
  }

  /** The byte that digits `2 * k` and `2 * k + 1` of `s` denote. */
  function PairValue(s: string, k: nat): (b: byte)
    requires AllDigits(s) && 2 * k + 1 < |s|
  {
    DigitValue(s[2 * k]).value * 16 + DigitValue(s[2 * k + 1]).value
  }

  /** `bytes.fromhex(s)`: one byte per pair of digits of either case, and
      None where Python raises ValueError (an odd number of digits or a
      character that is not a digit). */
  function FromHex(s: string): (r: Option<seq<byte>>)
    ensures r.Some? <==> |s| % 2 == 0 && AllDigits(s)
    ensures r.Some? ==> 2 * |r.value| == |s|
  {
    if |s| % 2 == 0 && AllDigits(s) then
      Some(seq(|s| / 2, k requires 0 <= k < |s| / 2 => PairValue(s, k)))
    else None
  }

  /** `bytes.hex()` only emits text in that form. */
  lemma HexOfIsLowerHex(bs: seq<byte>)
    ensures IsLowerHex(HexOf(bs))
  {
  }

  /** Each lower-case digit reads back as the nibble it was written for. */
  lemma DigitValueOfLowerDigit(n: nat)
    requires n < 16
    ensures DigitValue(LowerDigit(n)) == Some(n)
  {
  }

  /** A lower-case digit is the digit at the position it denotes. */
  lemma LowerDigitOfValue(c: char)
    requires IsLowerDigit(c)
    ensures DigitValue(c).Some? && LowerDigit(DigitValue(c).value) == c
  {
  }

  /** The high and low nibble of `hi * 16 + lo`. */
  lemma Nibbles(hi: nat, lo: nat)
    requires hi < 16 && lo < 16
    ensures (hi * 16 + lo) / 16 == hi && (hi * 16 + lo) % 16 == lo
  {
  }

  /** `bytes.fromhex(bs.hex()) == bs` for every byte string. */
  lemma FromHexOfHexOf(bs: seq<byte>)
    ensures FromHex(HexOf(bs)) == Some(bs)
  {
    var s := HexOf(bs);
    forall i | 0 <= i < |s| ensures DigitValue(s[i]).Some? {
      DigitValueOfLowerDigit(bs[i / 2] / 16);
      DigitValueOfLowerDigit(bs[i / 2] % 16);
    }
    var r := FromHex(s).value;
    forall k | 0 <= k < |bs| ensures r[k] == bs[k] {
      DigitValueOfLowerDigit(bs[k] / 16);
      DigitValueOfLowerDigit(bs[k] % 16);
      assert s[2 * k] == LowerDigit(bs[k] / 16) && s[2 * k + 1] == LowerDigit(bs[k] % 16);
      assert PairValue(s, k) == (bs[k] / 16) * 16 + bs[k] % 16;
    }
    assert r == bs;
  }

  /** Every text `bytes.hex()` could have produced reads back to bytes
      whose `hex()` is that very text. */
  lemma HexOfFromHex(s: string)
    requires IsLowerHex(s)
    ensures FromHex(s).Some? && HexOf(FromHex(s).value) == s
  {
    forall i | 0 <= i < |s| ensures DigitValue(s[i]).Some? {
      LowerDigitOfValue(s[i]);
    }
    var r := FromHex(s).value;
    var h := HexOf(r);
    forall i | 0 <= i < |s| ensures h[i] == s[i] {
      var k := i / 2;
      LowerDigitOfValue(s[2 * k]);
      LowerDigitOfValue(s[2 * k + 1]);
      Nibbles(DigitValue(s[2 * k]).value, DigitValue(s[2 * k + 1]).value);
      assert r[k] == PairValue(s, k);
    }
  }

  /** Different byte strings have different hexadecimal texts. */
  lemma HexOfInjective(a: seq<byte>, b: seq<byte>)
    requires HexOf(a) == HexOf(b)
    ensures a == b
  {
    FromHexOfHexOf(a);
    FromHexOfHexOf(b);
  }

  /** The text of the first `n` bytes is the first `2 * n` digits. */
  lemma HexOfPrefix(bs: seq<byte>, n: nat)
    requires n <= |bs|
    ensures HexOf(bs[..n]) == HexOf(bs)[..2 * n]
  {
  }
}
