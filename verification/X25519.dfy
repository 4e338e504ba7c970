/**
  DHKEM(X25519, HKDF-SHA256) as section 4.1 of RFC 9180 defines it and the custody cores
  write it out, with LabeledExtract and LabeledExpand of section 4, and HPKE base-mode
  seal and open over the symbolic primitives.
  */
module X25519 {
  import opened Integers
  import opened Statuses
  import opened SymbolicBytes

  /** Enum numbers as they arrive, known or not. */
  datatype HpkeAlgorithm = HpkeAlgorithm(kem: Int32, kdf: Int32, aead: Int32)

  /** The one suite both custody cores accept. */
  predicate SupportedSuite(a: HpkeAlgorithm) {
    a.kem == 1 && a.kdf == 1 && a.aead == 1
  }

  const KEY_LEN: nat := 32
  const TAG_LEN: nat := 16

  /** Key material of the right size, secret or public. */
  type Key32 = s: Bytes | |s| == 32 witness Octets(Random(0), 32)

  function PublicKey(secret: Bytes): (pk: Bytes)
    ensures |pk| == KEY_LEN
  {
    Octets(Public(secret), KEY_LEN)
  }

  predicate IsPublicKey(point: Bytes) {
    && |point| == KEY_LEN
    && point[0].Part?
    && point[0].of.Public?
    && point == Octets(point[0].of, KEY_LEN)
  }

  lemma PublicKeyIsPublicKey(secret: Bytes)
    ensures IsPublicKey(PublicKey(secret)) && PublicKey(secret)[0].of.secret == secret
  {
    assert PublicKey(secret)[0] == Part(Public(secret), 0);
  }

  /** X25519 up to its field arithmetic: the encodings it rejects are a parameter. */
  datatype Curve = Curve(smallOrder: set<Bytes>) {

    /** None exactly when the library finds the all-zero shared value. */
    function SharedKey(secret: Bytes, point: Bytes): (r: Option<Bytes>)
      requires |point| == KEY_LEN
      ensures r.Some? ==> |r.value| == KEY_LEN
      ensures r.None? <==> !IsPublicKey(point) && point in smallOrder
    {
      if IsPublicKey(point) then Some(Octets(Shared({Public(secret), point[0].of}), KEY_LEN))
      else if point in smallOrder then None
      else Some(Octets(SharedWith(secret, point), KEY_LEN))
    }
  }

  // ---------- RFC 9180 section 4 ----------

  const HPKE_V1: Bytes := Text("HPKE-v1")
  const SUITE_ID: Bytes := Literal(['K' as int, 'E' as int, 'M' as int, 0, 0x20])
  const EAE_PRK: Bytes := Text("eae_prk")
  const SHARED_SECRET: Bytes := Text("shared_secret")

  function BigEndian16(n: nat): (b: Bytes)
    requires n < 0x1_0000
    ensures |b| == 2
  {
    Literal([n / 256, n % 256])
  }

  function LabeledExtract(salt: Bytes, purpose: Bytes, ikm: Bytes, suite: Bytes): (prk: Bytes)
    ensures |prk| == 32
  {
    Octets(Extracted(salt, HPKE_V1 + suite + purpose + ikm), 32)
  }

  /** HKDF-Expand refuses more than 255 hash blocks. */
  function LabeledExpand(prk: Bytes, purpose: Bytes, info: Bytes, suite: Bytes, len: nat): (r: Result<Bytes>)
    requires len < 0x1_0000
    ensures r.Ok? <==> len <= 255 * 32
    ensures r.Ok? ==> |r.value| == len
  {
    if len > 255 * 32 then Err(DecapsulationFailure)
    else Ok(Octets(Expanded(prk, BigEndian16(len) + HPKE_V1 + suite + purpose + info), len))
  }

  /** The two HKDF calls shared by encapsulation and decapsulation. */
  function ExtractAndExpand(dh: Bytes, kemContext: Bytes): (r: Result<Bytes>)
    ensures r.Ok? && |r.value| == 32
  {
    LabeledExpand(LabeledExtract([], EAE_PRK, dh, SUITE_ID), SHARED_SECRET, kemContext, SUITE_ID, 32)
  }

  // ---------- RFC 9180 section 4.1 ----------

  /** Encapsulate to pkR; `drawn` is the secret drawn when no ephemeral one is supplied. */
  function Encap(c: Curve, pkR: Bytes, ephemeral: Option<Bytes>, drawn: Bytes): (r: Result<(Bytes, Bytes)>)
    requires |pkR| == KEY_LEN && |drawn| == KEY_LEN
  {
    if ephemeral.Some? && |ephemeral.value| != KEY_LEN then Err(InvalidArgument)
    else
      var skE := if ephemeral.Some? then ephemeral.value else drawn;
      var enc := PublicKey(skE);
      match c.SharedKey(skE, pkR)
      case None => Err(CryptoError)
      case Some(dh) =>
        var s :- ExtractAndExpand(dh, enc + pkR);
        Ok((s, enc))
  }

  function Decaps(c: Curve, skR: Bytes, enc: Bytes): (r: Result<Bytes>)
    ensures |skR| == KEY_LEN ==> (r.Ok? <==> |enc| == KEY_LEN && c.SharedKey(skR, enc).Some?)
    ensures r.Ok? ==> |r.value| == 32
  {
    if |skR| != KEY_LEN then Err(InvalidArgument)
    else if |enc| != KEY_LEN then Err(DecapsulationFailure)
    else
      match c.SharedKey(skR, enc)
      case None => Err(DecapsulationFailure)
      case Some(dh) => ExtractAndExpand(dh, enc + PublicKey(skR))
  }

  /** Whatever the ephemeral and recipient keys, both ends derive one 32-byte secret. */
  lemma Agreement(c: Curve, skR: Bytes, ephemeral: Option<Bytes>, drawn: Bytes)
    requires |skR| == KEY_LEN && |drawn| == KEY_LEN
    requires ephemeral.Some? ==> |ephemeral.value| == KEY_LEN
    ensures var r := Encap(c, PublicKey(skR), ephemeral, drawn);
            r.Ok? && Decaps(c, skR, r.value.1) == Ok(r.value.0)
  {
    var skE := if ephemeral.Some? then ephemeral.value else drawn;
    PublicKeyIsPublicKey(skR);
    PublicKeyIsPublicKey(skE);
    assert {Public(skE), Public(skR)} == {Public(skR), Public(skE)};
  }

  lemma AppendInjective(p: Bytes, a: Bytes, b: Bytes)
    requires p + a == p + b
    ensures a == b
  {
    assert (p + a)[|p|..] == a && (p + b)[|p|..] == b;
  }

  /** The KEM context enc || pkR has only one reading, since enc is as long as a key. */
  lemma ContextInjective(enc: Bytes, pk: Bytes, enc': Bytes, pk': Bytes)
    requires |enc| == |enc'| && enc + pk == enc' + pk'
    ensures enc == enc' && pk == pk'
  {
    assert (enc + pk)[..|enc|] == enc && (enc' + pk')[..|enc|] == enc';
    assert (enc + pk)[|enc|..] == pk && (enc' + pk')[|enc|..] == pk';
  }

  /** Equal secrets come only from equal Diffie-Hellman values and equal contexts. */
  lemma ExtractAndExpandInjective(dh: Bytes, ctx: Bytes, dh': Bytes, ctx': Bytes)
    requires ExtractAndExpand(dh, ctx) == ExtractAndExpand(dh', ctx')
    ensures dh == dh' && ctx == ctx'
  {
    var x := HPKE_V1 + SUITE_ID + EAE_PRK;
    var y := BigEndian16(32) + HPKE_V1 + SUITE_ID + SHARED_SECRET;
    var prk, prk' := LabeledExtract([], EAE_PRK, dh, SUITE_ID), LabeledExtract([], EAE_PRK, dh', SUITE_ID);
    OctetsInjective(Expanded(prk, y + ctx), Expanded(prk', y + ctx'), 32);
    AppendInjective(y, ctx, ctx');
    OctetsInjective(Extracted([], x + dh), Extracted([], x + dh'), 32);
    AppendInjective(x, dh, dh');
  }

  /** A decapsulated secret determines the exchange it came from. */
  lemma SecretBindsExchange(c: Curve, sk: Bytes, enc: Bytes, sk': Bytes, enc': Bytes)
    requires Decaps(c, sk, enc).Ok? && Decaps(c, sk, enc) == Decaps(c, sk', enc')
    ensures enc == enc' && PublicKey(sk) == PublicKey(sk') && c.SharedKey(sk, enc) == c.SharedKey(sk', enc')
  {
    ExtractAndExpandInjective(c.SharedKey(sk, enc).value, enc + PublicKey(sk),
                              c.SharedKey(sk', enc').value, enc' + PublicKey(sk'));
    ContextInjective(enc, PublicKey(sk), enc', PublicKey(sk'));
  }

  // ---------- HPKE base mode (RFC 9180 section 5.1.1) ----------

  function HpkeSeal(c: Curve, pk: Bytes, plaintext: Bytes, aad: Bytes, algo: HpkeAlgorithm, ephemeral: Bytes)
    : (r: Result<(Bytes, Bytes)>)
    requires |pk| == KEY_LEN && |ephemeral| == KEY_LEN
    ensures r.Ok? ==> |r.value.0| == KEY_LEN && |r.value.1| == |plaintext| + TAG_LEN
  {
    if !SupportedSuite(algo) then Err(UnsupportedAlgorithm)
    else if c.SharedKey(ephemeral, pk).None? then Err(EncryptionFailure)
    else
      var enc := PublicKey(ephemeral);
      Ok((enc, Octets(Box(pk, enc, aad, plaintext), |plaintext| + TAG_LEN)))
  }

  function HpkeOpen(c: Curve, sk: Bytes, enc: Bytes, ciphertext: Bytes, aad: Bytes, algo: HpkeAlgorithm)
    : (r: Result<Bytes>)
  {
    if !SupportedSuite(algo) then Err(UnsupportedAlgorithm)
    else if |sk| != KEY_LEN || |enc| != KEY_LEN || c.SharedKey(sk, enc).None? then Err(DecryptionFailure)
    else if |ciphertext| == 0 || !ciphertext[0].Part? || !ciphertext[0].of.Box? then Err(DecryptionFailure)
    else
      var box := ciphertext[0].of;
      if && box.recipient == PublicKey(sk)
         && box.enc == enc
         && box.aad == aad
         && ciphertext == Octets(box, |box.plaintext| + TAG_LEN)
      then Ok(box.plaintext)
      else Err(DecryptionFailure)
  }

  /** A sealed box opens for exactly the holder it was sealed to, in exactly its context. */
  lemma OpensExactlyWhereSealed(c: Curve, pk: Bytes, plaintext: Bytes, aad: Bytes, algo: HpkeAlgorithm,
                                ephemeral: Bytes, sk: Bytes, aad': Bytes)
    requires |pk| == KEY_LEN && |ephemeral| == KEY_LEN && |sk| == KEY_LEN
    requires HpkeSeal(c, pk, plaintext, aad, algo, ephemeral).Ok?
    ensures var (enc, ct) := HpkeSeal(c, pk, plaintext, aad, algo, ephemeral).value;
            var result := HpkeOpen(c, sk, enc, ct, aad', algo);
            && (result.Ok? <==> pk == PublicKey(sk) && aad' == aad)
            && (result.Ok? ==> result.value == plaintext)
  {
    var (enc, ct) := HpkeSeal(c, pk, plaintext, aad, algo, ephemeral).value;
    PublicKeyIsPublicKey(ephemeral);
    assert ct[0] == Part(Box(pk, enc, aad, plaintext), 0);
  }

  /** Conversely, whatever opens is a box sealed to that key in that context. */
  lemma OpenedWasSealed(c: Curve, sk: Bytes, enc: Bytes, ciphertext: Bytes, aad: Bytes, algo: HpkeAlgorithm)
    requires HpkeOpen(c, sk, enc, ciphertext, aad, algo).Ok?
    ensures var pt := HpkeOpen(c, sk, enc, ciphertext, aad, algo).value;
            ciphertext == Octets(Box(PublicKey(sk), enc, aad, pt), |pt| + TAG_LEN)
  {
  }
}
