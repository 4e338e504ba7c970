/**
  The additional authenticated data that ties a resealed secret to one decapsulation:
  the text "wsd:keys:decaps:v1:<algorithm>:<handle>", the algorithm in decimal and the
  handle in canonical UUID form.
  */
module DecapsContext {
  import opened SymbolicBytes
  import opened Handles

  // ---------- decimal integers ----------

  function Digit(d: int): (c: char)
    requires 0 <= d < 10
  {
    '0' + d as char
  }

  function DigitValue(c: char): int {
    c as int - '0' as int
  }

  function DecimalNat(n: nat): (s: string)
    ensures |s| > 0
  {
    if n < 10 then [Digit(n)] else DecimalNat(n / 10) + [Digit(n % 10)]
  }

  /** Go's %d verb. */
  function Decimal(n: int): (s: string)
    ensures |s| > 0
  {
    if n < 0 then "-" + DecimalNat(-n) else DecimalNat(n)
  }

  function NatOfDigits(s: string): int {
    if |s| == 0 then 0 else 10 * NatOfDigits(s[..|s| - 1]) + DigitValue(s[|s| - 1])
  }

  function IntOfText(s: string): int {
    if |s| > 0 && s[0] == '-' then -NatOfDigits(s[1..]) else NatOfDigits(s)
  }

  lemma {:induction false} DigitsRoundTrip(n: nat)
    ensures NatOfDigits(DecimalNat(n)) == n
    ensures forall i :: 0 <= i < |DecimalNat(n)| ==> '0' <= DecimalNat(n)[i] <= '9'
  {
    var s := DecimalNat(n);
    if n < 10 {
      assert s[..|s| - 1] == [];
    } else {
      DigitsRoundTrip(n / 10);
      assert s[..|s| - 1] == DecimalNat(n / 10);
    }
  }

  /** Every integer is recovered from its decimal text, and the text holds no colon. */
  lemma DecimalRoundTrip(n: int)
    ensures IntOfText(Decimal(n)) == n
    ensures ':' !in Decimal(n)
  {
    if n < 0 {
      DigitsRoundTrip(-n);
      assert Decimal(n)[1..] == DecimalNat(-n);
    } else {
      DigitsRoundTrip(n);
    }
  }

  // ---------- the context string ----------

  const PREFIX := "wsd:keys:decaps:v1:"

  function ContextText(handle: Uuid, algorithm: int): string {
    PREFIX + Decimal(algorithm) + ":" + UuidText(handle)
  }

  function Aad(handle: Uuid, algorithm: int): Bytes {
    Text(ContextText(handle, algorithm))
  }

  lemma {:induction false} HexTextIsAscii(n: nat, k: nat)
    ensures IsAscii(HexText(n, k))
  {
    if k > 0 {
      HexTextIsAscii(n / 16, k - 1);
    }
  }

  lemma AsciiConcat(s: string, t: string)
    requires IsAscii(s) && IsAscii(t)
    ensures IsAscii(s + t)
  {
  }

  lemma UuidTextIsAscii(u: Uuid)
    ensures IsAscii(UuidText(u))
  {
    HexTextIsAscii(u as int, 32);
    var h := HexText(u as int, 32);
    assert IsAscii("-");
    var s := h[..8] + "-" + h[8..12] + "-" + h[12..16];
    assert IsAscii(s);
    AsciiConcat(s, "-" + h[16..20] + "-" + h[20..]);
    assert UuidText(u) == s + ("-" + h[16..20] + "-" + h[20..]);
  }

  lemma ContextTextIsAscii(handle: Uuid, algorithm: int)
    ensures IsAscii(ContextText(handle, algorithm))
  {
    UuidTextIsAscii(handle);
    DigitsRoundTrip(if algorithm < 0 then -algorithm else algorithm);
    assert IsAscii(PREFIX) && IsAscii(":");
    AsciiConcat(PREFIX, Decimal(algorithm));
    AsciiConcat(PREFIX + Decimal(algorithm), ":");
    AsciiConcat(PREFIX + Decimal(algorithm) + ":", UuidText(handle));
  }

  /** With a tail of fixed length the framing has one reading. */
  lemma FramingInjective(prefix: string, mid: string, tail: string, mid': string, tail': string)
    requires |tail| == |tail'| && prefix + mid + ":" + tail == prefix + mid' + ":" + tail'
    ensures mid == mid' && tail == tail'
  {
    var t, t' := prefix + mid + ":" + tail, prefix + mid' + ":" + tail';
    assert t[|t| - |tail|..] == tail && t'[|t| - |tail|..] == tail';
    assert t[|prefix|..|t| - |tail| - 1] == mid && t'[|prefix|..|t| - |tail| - 1] == mid';
  }

  /** Distinct (handle, algorithm) pairs never share a context. */
  lemma AadInjective(handle: Uuid, algorithm: int, handle': Uuid, algorithm': int)
    requires Aad(handle, algorithm) == Aad(handle', algorithm')
    ensures handle == handle' && algorithm == algorithm'
  {
    var t, t' := ContextText(handle, algorithm), ContextText(handle', algorithm');
    ContextTextIsAscii(handle, algorithm);
    ContextTextIsAscii(handle', algorithm');
    TextInjective(t, t');
    FramingInjective(PREFIX, Decimal(algorithm), UuidText(handle), Decimal(algorithm'), UuidText(handle'));
    UuidRoundTrip(handle);
    UuidRoundTrip(handle');
    DecimalRoundTrip(algorithm);
    DecimalRoundTrip(algorithm');
  }

  predicate IsLowerHex(c: char) {
    '0' <= c <= '9' || 'a' <= c <= 'f'
  }

  lemma {:induction false} HexTextIsLower(n: nat, k: nat)
    ensures forall c :: c in HexText(n, k) ==> IsLowerHex(c)
  {
    if k > 0 {
      HexTextIsLower(n / 16, k - 1);
    }
  }

  /** The text's shape; with the round trips above it leaves only one text for each pair. */
  lemma ContextShape(handle: Uuid, algorithm: int)
    ensures ContextText(handle, algorithm) == "wsd:keys:decaps:v1:" + Decimal(algorithm) + ":" + UuidText(handle)
    ensures Decimal(1) == "1"
    ensures var u := UuidText(handle);
            forall i :: 0 <= i < |u| ==> if i in {8, 13, 18, 23} then u[i] == '-' else IsLowerHex(u[i])
  {
    HexTextIsLower(handle as int, 32);
    DashesOnly(HexText(handle as int, 32), UuidText(handle));
  }

  lemma DashesOnly(h: string, s: string)
    requires |h| == 32 && s == h[..8] + "-" + h[8..12] + "-" + h[12..16] + "-" + h[16..20] + "-" + h[20..]
    requires forall c :: c in h ==> IsLowerHex(c)
    ensures forall i :: 0 <= i < |s| ==> if i in {8, 13, 18, 23} then s[i] == '-' else IsLowerHex(s[i])
  {
    forall i | 0 <= i < |s| && i !in {8, 13, 18, 23}
      ensures IsLowerHex(s[i])
    {
      var j := if i < 8 then i else if i < 13 then i - 1 else if i < 18 then i - 2 else if i < 23 then i - 3 else i - 4;
      assert s[i] == h[j] && h[j] in h;
    }
  }
}
