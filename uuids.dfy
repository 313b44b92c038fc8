/**
 * The two operations of the `uuid` crate that the emitter relies on to pass
 * identifiers through Kafka headers: `Uuid::to_string` (hyphenated, lower case)
 * and `Uuid::try_parse`.
 */
module Uuids {
  import opened Wrappers
  import opened Formatting

  const UUID_BOUND: nat := 0x1_0000_0000_0000_0000_0000_0000_0000_0000

  /** A 128-bit UUID, as its numeric value. */
  type Uuid = u: nat | u < UUID_BOUND

  lemma {:induction false} Pow16Sum(a: nat, b: nat)
    ensures Pow16(a + b) == Pow16(a) * Pow16(b)
  {
    if a > 0 {
      Pow16Sum(a - 1, b);
    }
  }

  lemma Pow16Of32()
    ensures Pow16(32) == UUID_BOUND
  {
    assert Pow16(4) == 0x1_0000;
    Pow16Sum(4, 4);
    Pow16Sum(8, 8);
    Pow16Sum(16, 16);
  }

  /** Splits 32 hex digits into the 8-4-4-4-12 groups. */
  function Hyphenate(d: string): (s: string)
    requires |d| == 32
    ensures |s| == 36
  {
    d[..8] + "-" + d[8..12] + "-" + d[12..16] + "-" + d[16..20] + "-" + d[20..]
  }

  /** `Uuid::to_string` (its `Display`): hyphenated lower-case hex. */
  function ToString(u: Uuid): (s: string)
    ensures |s| == 36
  {
    Pow16Of32();
    Hyphenate(Hex(u, 32))
  }

  /** The 32-digit form without hyphens. */
  function ParseSimple(s: string): Option<Uuid>
    requires |s| == 32
  {
    if AllHex(s) then
      HexNumberBound(s);
      Pow16Of32();
      Some(HexNumber(s))
    else None
  }

  /** The 36-character 8-4-4-4-12 form. */
  function ParseHyphenated(s: string): Option<Uuid>
    requires |s| == 36
  {
    if s[8] == '-' && s[13] == '-' && s[18] == '-' && s[23] == '-' then
      ParseSimple(s[..8] + s[9..13] + s[14..18] + s[19..23] + s[24..])
    else None
  }

  /**
   * `Uuid::try_parse`: the simple, hyphenated, braced (`{...}`) and URN
   * (`urn:uuid:...`) forms, hex digits in either case; anything else fails.
   */
  function TryParse(s: string): Option<Uuid>
  {
    if |s| == 32 then ParseSimple(s)
    else if |s| == 36 then ParseHyphenated(s)
    else if |s| == 38 && s[0] == '{' && s[37] == '}' then ParseHyphenated(s[1..37])
    else if |s| == 45 && s[..9] == "urn:uuid:" then ParseHyphenated(s[9..])
    else None
  }

  /** The hyphens sit where the 8-4-4-4-12 form expects them, and dropping them gives the digits back. */
  lemma HyphenateParts(d: string)
    requires |d| == 32
    ensures var s := Hyphenate(d);
      && s[8] == '-' && s[13] == '-' && s[18] == '-' && s[23] == '-'
      && s[..8] + s[9..13] + s[14..18] + s[19..23] + s[24..] == d
  {
    var s := Hyphenate(d);
    assert s[..8] == d[..8] && s[9..13] == d[8..12] && s[14..18] == d[12..16];
    assert s[19..23] == d[16..20] && s[24..] == d[20..];
    assert d == d[..8] + d[8..12] + d[12..16] + d[16..20] + d[20..];
  }

  /** What a producer writes into a header, a consumer parses back unchanged. */
  lemma ParseToString(u: Uuid)
    ensures TryParse(ToString(u)) == Some(u)
  {
    Pow16Of32();
    var d := Hex(u, 32);
    assert ToString(u) == Hyphenate(d);
    HyphenateParts(d);
    HexRoundTrip(u, 32);
  }

  /** Distinct identifiers have distinct header texts. */
  lemma ToStringInjective(a: Uuid, b: Uuid)
    requires a != b
    ensures ToString(a) != ToString(b)
  {
    ParseToString(a);
    ParseToString(b);
  }
}
