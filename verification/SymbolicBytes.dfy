/**
  Byte strings whose secret parts are symbolic. An octet is either a known byte or the
  i-th byte of a term that only a cryptographic primitive can produce; concatenation,
  slicing and length are those of ordinary sequences, so framing is modelled byte by byte.
  */
module SymbolicBytes {

  type byte = b: int | 0 <= b < 256

  datatype Octet = Lit(value: byte) | Part(of: Term, index: nat)

  type Bytes = seq<Octet>

  datatype Term =
    | Random(seed: nat)                                               // bytes from the generator
    | Public(secret: Bytes)                                           // X25519 public key
    | Shared(keys: set<Term>)                                         // X25519 of two key pairs, unordered
    | SharedWith(secret: Bytes, point: Bytes)                         // X25519 with a point nobody made
    | Extracted(salt: Bytes, ikm: Bytes)                              // HKDF-Extract
    | Expanded(prk: Bytes, info: Bytes)                               // HKDF-Expand
    | Box(recipient: Bytes, enc: Bytes, aad: Bytes, plaintext: Bytes) // HPKE base-mode ciphertext

  /** The first n bytes of a term. */
  function Octets(t: Term, n: nat): (b: Bytes)
    ensures |b| == n
  {
    seq(n, (i: nat) => Part(t, i))
  }

  lemma OctetsInjective(t: Term, u: Term, n: nat)
    requires 0 < n && Octets(t, n) == Octets(u, n)
    ensures t == u
  {
    assert Octets(t, n)[0] == Part(t, 0) && Octets(u, n)[0] == Part(u, 0);
  }

  /** Known bytes as a byte string. */
  function Literal(s: seq<byte>): (b: Bytes)
    ensures |b| == |s|
  {
    seq(|s|, i requires 0 <= i < |s| => Lit(s[i]))
  }

  lemma LiteralInjective(s: seq<byte>, t: seq<byte>)
    requires Literal(s) == Literal(t)
    ensures s == t
  {
    assert |Literal(s)| == |s| && |Literal(t)| == |t|;
    forall i | 0 <= i < |s|
      ensures s[i] == t[i]
    {
      assert Literal(s)[i] == Lit(s[i]) && Literal(t)[i] == Lit(t[i]);
    }
  }

  function Ascii(s: string): (b: seq<byte>)
    ensures |b| == |s|
  {
    seq(|s|, i requires 0 <= i < |s| => (s[i] as int % 256) as byte)
  }

  predicate IsAscii(s: string) {
    forall i :: 0 <= i < |s| ==> s[i] as int < 128
  }

  /** Text as bytes. */
  function Text(s: string): (b: Bytes)
    ensures |b| == |s|
  {
    Literal(Ascii(s))
  }

  lemma TextInjective(s: string, t: string)
    requires IsAscii(s) && IsAscii(t) && Text(s) == Text(t)
    ensures s == t
  {
    LiteralInjective(Ascii(s), Ascii(t));
    assert |Ascii(s)| == |s| && |Ascii(t)| == |t|;
    forall i | 0 <= i < |s|
      ensures s[i] == t[i]
    {
      assert Ascii(s)[i] == s[i] as int % 256 && Ascii(t)[i] == t[i] as int % 256;
    }
  }
}
