/** Bytes and their lower-case hexadecimal rendering, as produced by
    `hex::encode`: two characters per byte, most significant nibble first.
    `Decode` is the inverse used to show that the rendering loses nothing. */
module Hex {
  import opened Wrappers

  type byte = x: int | 0 <= x < 0x100
  type nibble = x: int | 0 <= x < 0x10

  /** One of the characters `0`-`9`, `a`-`f`. */
  predicate IsDigit(c: char) {
    '0' <= c <= '9' || 'a' <= c <= 'f'
  }

  function Digit(n: nibble): (c: char)
    ensures IsDigit(c)
  {
    if n < 10 then ('0' as int + n) as char else ('a' as int + n - 10) as char
  }

  /** The value of a lower-case hexadecimal digit. */
  function DigitValue(c: char): (r: Option<nibble>)
    ensures r.Some? <==> IsDigit(c)
    ensures r.Some? ==> Digit(r.value) == c
  {
    if '0' <= c <= '9' then Some(c as int - '0' as int)
    else if 'a' <= c <= 'f' then Some(c as int - 'a' as int + 10)
    else None
  }

  lemma DigitRoundTrip(n: nibble)
    ensures DigitValue(Digit(n)) == Some(n)
  {
  }

  function EncodeByte(b: byte): (s: string)
    ensures |s| == 2 && IsDigit(s[0]) && IsDigit(s[1])
  {
    [Digit(b / 16), Digit(b % 16)]
  }

  /** The byte whose high and low nibbles are `hi` and `lo`. */
  function ByteOf(hi: nibble, lo: nibble): (b: byte)
    ensures b / 16 == hi && b % 16 == lo
  {
    (hi as int) * 16 + (lo as int)
  }

  /** `hex::encode`: every byte becomes two lower-case hex digits. */
  function Encode(bs: seq<byte>): (s: string)
    ensures |s| == 2 * |bs|
    ensures forall i :: 0 <= i < |s| ==> IsDigit(s[i])
  {
    if bs == [] then "" else EncodeByte(bs[0]) + Encode(bs[1..])
  }

  /** The inverse of `Encode`: `None` for an odd length or a character that is
      not a lower-case hex digit. */
  function Decode(s: string): (r: Option<seq<byte>>)
    ensures r.Some? ==> 2 * |r.value| == |s|
  {
    if s == [] then Some([])
    else if |s| == 1 then None
    else
      var hi, lo, rest := DigitValue(s[0]), DigitValue(s[1]), Decode(s[2..]);
      if hi.Some? && lo.Some? && rest.Some? then
        Some([ByteOf(hi.value, lo.value)] + rest.value)
      else None
  }

  lemma {:induction false} DecodeEncode(bs: seq<byte>)
    ensures Decode(Encode(bs)) == Some(bs)
  {
    if bs != [] {
      var b := bs[0];
      var head, tail := EncodeByte(b), Encode(bs[1..]);
      assert Encode(bs) == head + tail;
      assert (head + tail)[0] == head[0] && (head + tail)[1] == head[1];
      assert (head + tail)[2..] == tail;
      DigitRoundTrip(b / 16);
      DigitRoundTrip(b % 16);
      assert ByteOf(b / 16, b % 16) == b;
      DecodeEncode(bs[1..]);
      assert [b] + bs[1..] == bs;
    }
  }

  /** Distinct byte strings never share a rendering. */
  lemma EncodeInjective(a: seq<byte>, b: seq<byte>)
    ensures Encode(a) == Encode(b) ==> a == b
  {
    DecodeEncode(a);
    DecodeEncode(b);
  }

  /** No rendered string contains a NUL character. */
  lemma EncodeHasNoNul(bs: seq<byte>)
    ensures '\0' !in Encode(bs)
  {
  }
}
