/**
  Key handles. A UUID is its 16 bytes read as one big-endian number, so the byte order in
  which the registry sorts handles is the order of the numbers.
  */
module Handles {
  import opened Statuses

  newtype Uuid = n: int | 0 <= n < 0x1_0000_0000_0000_0000_0000_0000_0000_0000

  function HexDigit(d: int): (c: char)
    requires 0 <= d < 16
  {
    if d < 10 then '0' + d as char else 'a' + (d - 10) as char
  }

  function HexValue(c: char): (v: Option<int>)
    ensures v.Some? ==> 0 <= v.value < 16
  {
    if '0' <= c <= '9' then Some(c as int - '0' as int)
    else if 'a' <= c <= 'f' then Some(c as int - 'a' as int + 10)
    else if 'A' <= c <= 'F' then Some(c as int - 'A' as int + 10)
    else None
  }

  function Pow16(k: nat): nat {
    if k == 0 then 1 else 16 * Pow16(k - 1)
  }

  /** n in exactly k hex digits, high digit first. */
  function HexText(n: nat, k: nat): (s: string)
    ensures |s| == k
  {
    if k == 0 then [] else HexText(n / 16, k - 1) + [HexDigit(n % 16)]
  }

  function HexNumber(s: string): (r: Option<nat>)
    ensures r.Some? ==> r.value < Pow16(|s|)
  {
    if |s| == 0 then Some(0)
    else
      match (HexNumber(s[..|s| - 1]), HexValue(s[|s| - 1]))
      case (Some(high), Some(low)) => Some(16 * high + low)
      case _ => None
  }

  lemma {:induction false} HexRoundTrip(n: nat, k: nat)
    requires n < Pow16(k)
    ensures HexNumber(HexText(n, k)) == Some(n)
  {
    if k > 0 {
      HexRoundTrip(n / 16, k - 1);
      assert HexText(n, k)[..k - 1] == HexText(n / 16, k - 1);
    }
  }

  lemma Pow16Of32()
    ensures Pow16(32) == 0x1_0000_0000_0000_0000_0000_0000_0000_0000
  {
    assert Pow16(8) == 0x1_0000_0000;
    assert Pow16(16) == 0x1_0000_0000_0000_0000;
    assert Pow16(24) == 0x1_0000_0000_0000_0000_0000_0000;
  }

  /** Canonical 8-4-4-4-12 form. */
  function UuidText(u: Uuid): (s: string)
    ensures |s| == 36
  {
    var h := HexText(u as int, 32);
    h[..8] + "-" + h[8..12] + "-" + h[12..16] + "-" + h[16..20] + "-" + h[20..]
  }

  /** Parsing of the canonical form, in either case of hex digit. */
  function ParseUuid(s: string): (r: Option<Uuid>) {
    if |s| != 36 || s[8] != '-' || s[13] != '-' || s[18] != '-' || s[23] != '-' then None
    else
      match HexNumber(s[..8] + s[9..13] + s[14..18] + s[19..23] + s[24..])
      case Some(n) => Pow16Of32(); Some(n as Uuid)
      case None => None
  }

  lemma UndashedIsHex(h: string, s: string)
    requires |h| == 32 && s == h[..8] + "-" + h[8..12] + "-" + h[12..16] + "-" + h[16..20] + "-" + h[20..]
    ensures |s| == 36 && s[8] == s[13] == s[18] == s[23] == '-'
    ensures s[..8] + s[9..13] + s[14..18] + s[19..23] + s[24..] == h
  {
    assert s[..8] == h[..8] && s[9..13] == h[8..12] && s[14..18] == h[12..16];
    assert s[19..23] == h[16..20] && s[24..] == h[20..];
  }

  function Lower(c: char): char {
    if 'A' <= c <= 'F' then (c as int + 32) as char else c
  }

  function LowerText(s: string): (r: string)
    ensures |r| == |s|
  {
    seq(|s|, i requires 0 <= i < |s| => Lower(s[i]))
  }

  lemma {:induction false} HexPrintsBack(s: string)
    requires HexNumber(s).Some?
    ensures HexText(HexNumber(s).value, |s|) == LowerText(s)
  {
    if |s| > 0 {
      var front := s[..|s| - 1];
      HexPrintsBack(front);
      assert LowerText(s) == LowerText(front) + [Lower(s[|s| - 1])];
    }
  }

  lemma SlicesLower(s: string)
    requires |s| == 36 && s[8] == s[13] == s[18] == s[23] == '-'
    ensures var h := LowerText(s[..8] + s[9..13] + s[14..18] + s[19..23] + s[24..]);
            LowerText(s) == h[..8] + "-" + h[8..12] + "-" + h[12..16] + "-" + h[16..20] + "-" + h[20..]
  {
    var h := LowerText(s[..8] + s[9..13] + s[14..18] + s[19..23] + s[24..]);
    assert h[..8] == LowerText(s[..8]) && h[8..12] == LowerText(s[9..13]) && h[12..16] == LowerText(s[14..18]);
    assert h[16..20] == LowerText(s[19..23]) && h[20..] == LowerText(s[24..]);
    var low := LowerText(s);
    assert low[..8] == h[..8] && low[9..13] == h[8..12] && low[14..18] == h[12..16];
    assert low[19..23] == h[16..20] && low[24..] == h[20..];
    assert low == low[..8] + [low[8]] + low[9..13] + [low[13]] + low[14..18] + [low[18]] + low[19..23] + [low[23]]
                  + low[24..];
  }

  /** Conversely, only a handle's own text is read as that handle, up to the case of its digits. */
  lemma ParsedPrintsBack(s: string)
    requires ParseUuid(s).Some?
    ensures UuidText(ParseUuid(s).value) == LowerText(s)
  {
    HexPrintsBack(s[..8] + s[9..13] + s[14..18] + s[19..23] + s[24..]);
    SlicesLower(s);
  }

  /** A handle survives being printed by one side and parsed by the other. */
  lemma UuidRoundTrip(u: Uuid)
    ensures ParseUuid(UuidText(u)) == Some(u)
  {
    UndashedIsHex(HexText(u as int, 32), UuidText(u));
    Pow16Of32();
    HexRoundTrip(u as int, 32);
  }
}
