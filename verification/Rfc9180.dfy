/**
  DHKEM(X25519, HKDF-SHA256) in the terms of RFC 9180, sections 4 and 4.1: labels as text,
  integers through I2OSP, the names of the standard. It is the reference that the custody
  cores' byte-level code is proved against.
  */
module Rfc9180 {
  import opened Statuses
  import opened SymbolicBytes
  import opened X25519

  const KEM_ID: nat := 0x0020
  const N_SECRET: nat := 32
  const N_PK: nat := 32

  /** The w-byte big-endian encoding of n. */
  function I2OSP(n: nat, w: nat): (b: Bytes)
    ensures |b| == w
  {
    if w == 0 then [] else I2OSP(n / 256, w - 1) + Literal([n % 256])
  }

  function SuiteId(): Bytes {
    Text("KEM") + I2OSP(KEM_ID, 2)
  }

  function LabeledExtractSpec(salt: Bytes, name: string, ikm: Bytes): Bytes {
    Octets(Extracted(salt, Text("HPKE-v1") + SuiteId() + Text(name) + ikm), 32)
  }

  function LabeledExpandSpec(prk: Bytes, name: string, info: Bytes, len: nat): Bytes {
    Octets(Expanded(prk, I2OSP(len, 2) + Text("HPKE-v1") + SuiteId() + Text(name) + info), len)
  }

  function ExtractAndExpandSpec(dh: Bytes, kemContext: Bytes): Bytes {
    LabeledExpandSpec(LabeledExtractSpec(Text(""), "eae_prk", dh), "shared_secret", kemContext, N_SECRET)
  }

  /** Decap(enc, skR); None where DH has no value. */
  function DecapSpec(c: Curve, enc: Bytes, skR: Bytes): Option<Bytes>
    requires |enc| == N_PK
  {
    var dh := c.SharedKey(skR, enc);
    var pkRm := PublicKey(skR);
    if dh.None? then None else Some(ExtractAndExpandSpec(dh.value, enc + pkRm))
  }

  /** Encap(pkR) with the ephemeral key pair of skE. */
  function EncapSpec(c: Curve, pkR: Bytes, skE: Bytes): Option<(Bytes, Bytes)>
    requires |pkR| == N_PK
  {
    var dh := c.SharedKey(skE, pkR);
    var enc := PublicKey(skE);
    if dh.None? then None else Some((ExtractAndExpandSpec(dh.value, enc + pkR), enc))
  }

  lemma SuiteIdBytes()
    ensures SUITE_ID == SuiteId() && Text("") == []
  {
    assert I2OSP(KEM_ID, 1) == I2OSP(0, 0) + Literal([0x20]);
  }

  lemma TwoByteLength(n: nat)
    requires n < 0x1_0000
    ensures BigEndian16(n) == I2OSP(n, 2)
  {
    assert I2OSP(n / 256, 1) == [] + Literal([n / 256 % 256]);
  }

  lemma DerivationFollowsRfc9180(dh: Bytes, kemContext: Bytes)
    ensures ExtractAndExpand(dh, kemContext) == Ok(ExtractAndExpandSpec(dh, kemContext))
  {
    SuiteIdBytes();
    TwoByteLength(32);
  }

  /** The cores' decapsulation is the standard's wherever the standard's is defined, and fails elsewhere. */
  lemma DecapsFollowsRfc9180(c: Curve, skR: Bytes, enc: Bytes)
    requires |skR| == KEY_LEN
    ensures Decaps(c, skR, enc) ==
            if |enc| == N_PK && DecapSpec(c, enc, skR).Some? then Ok(DecapSpec(c, enc, skR).value)
            else Err(DecapsulationFailure)
  {
    if |enc| == N_PK && c.SharedKey(skR, enc).Some? {
      DerivationFollowsRfc9180(c.SharedKey(skR, enc).value, enc + PublicKey(skR));
    }
  }

  /** Likewise encapsulation, for a supplied or drawn ephemeral key. */
  lemma EncapFollowsRfc9180(c: Curve, pkR: Bytes, ephemeral: Option<Bytes>, drawn: Bytes)
    requires |pkR| == KEY_LEN && |drawn| == KEY_LEN
    requires ephemeral.Some? ==> |ephemeral.value| == KEY_LEN
    ensures var spec := EncapSpec(c, pkR, if ephemeral.Some? then ephemeral.value else drawn);
            Encap(c, pkR, ephemeral, drawn) == if spec.Some? then Ok(spec.value) else Err(CryptoError)
  {
    var skE := if ephemeral.Some? then ephemeral.value else drawn;
    if c.SharedKey(skE, pkR).Some? {
      DerivationFollowsRfc9180(c.SharedKey(skE, pkR).value, PublicKey(skE) + pkR);
    }
  }
}
