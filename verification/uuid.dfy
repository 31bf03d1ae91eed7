/** A 128-bit identity and its textual form as produced by `Uuid::to_string`:
    lower-case hex in groups of 8-4-4-4-12 digits separated by hyphens.
    `Parse` is its inverse. */
module Uuid {
  import opened Wrappers
  import Hex

  type Uuid = s: seq<Hex.byte> | |s| == 16 witness seq(16, i => 0)

  /** `Uuid::to_string`, the hyphenated form. */
  function Hyphenated(u: Uuid): (s: string)
    ensures |s| == 36
    ensures forall i :: 0 <= i < |s| ==> (s[i] == '-' <==> i in {8, 13, 18, 23})
  {
    Hex.Encode(u[..4]) + "-" + Hex.Encode(u[4..6]) + "-" + Hex.Encode(u[6..8]) + "-"
      + Hex.Encode(u[8..10]) + "-" + Hex.Encode(u[10..])
  }

  /** Reads a hyphenated identity back; `None` for any other text. */
  function Parse(s: string): (r: Option<Uuid>)
  {
    if |s| != 36 || s[8] != '-' || s[13] != '-' || s[18] != '-' || s[23] != '-' then None
    else
      var g0, g1, g2, g3, g4 := Hex.Decode(s[..8]), Hex.Decode(s[9..13]), Hex.Decode(s[14..18]),
        Hex.Decode(s[19..23]), Hex.Decode(s[24..]);
      if g0.Some? && g1.Some? && g2.Some? && g3.Some? && g4.Some? then
        var bytes := g0.value + g1.value + g2.value + g3.value + g4.value;
        assert |bytes| == 16;
        Some(bytes)
      else None
  }

  /** The five hex groups of a rendering sit at fixed positions. */
  lemma HyphenatedGroups(u: Uuid)
    ensures var s := Hyphenated(u);
      && s[..8] == Hex.Encode(u[..4])
      && s[9..13] == Hex.Encode(u[4..6])
      && s[14..18] == Hex.Encode(u[6..8])
      && s[19..23] == Hex.Encode(u[8..10])
      && s[24..] == Hex.Encode(u[10..])
  {
  }

  /** Reading back a rendered identity yields that identity. */
  lemma ParseHyphenated(u: Uuid)
    ensures Parse(Hyphenated(u)) == Some(u)
  {
    HyphenatedGroups(u);
    Hex.DecodeEncode(u[..4]);
    Hex.DecodeEncode(u[4..6]);
    Hex.DecodeEncode(u[6..8]);
    Hex.DecodeEncode(u[8..10]);
    Hex.DecodeEncode(u[10..]);
    assert u[..4] + u[4..6] + u[6..8] + u[8..10] + u[10..] == u;
  }

  /** Distinct identities never share a rendering. */
  lemma HyphenatedInjective(u: Uuid, v: Uuid)
    ensures Hyphenated(u) == Hyphenated(v) ==> u == v
  {
    ParseHyphenated(u);
    ParseHyphenated(v);
  }

  /** A rendered identity is never empty and never contains a NUL character. */
  lemma HyphenatedIsCString(u: Uuid)
    ensures Hyphenated(u) != ""
    ensures '\0' !in Hyphenated(u)
  {
  }
}
