/**
  The two custody cores over their registries: the KPS core makes KEM keys and reseals
  decapsulated secrets to a binding key; the workload core makes binding keys and opens.
  */
module Custody {
  import opened Statuses
  import opened SymbolicBytes
  import opened Handles
  import opened X25519
  import opened DecapsContext
  import opened KeyTypes

  const SUITE := HpkeAlgorithm(1, 1, 1)

  // Buffer sizes the Go callers pass.
  const PUBKEY_BUF: nat := 32
  const ENC_BUF: nat := 32
  const SEALED_BUF: nat := 48
  const SECRET_BUF: nat := 32

  // ---------- generation ----------

  /** A created key is registered before the caller's buffer is looked at. */
  function GenerateBinding(algo: HpkeAlgorithm, secs: nat, keys: Keys, now: nat, draw: Draw, outLen: nat)
    : (r: (Keys, Result<(Uuid, Key32)>))
  {
    match CreateBindingKey(algo, secs, now, draw)
    case Err(e) => (keys, Err(e))
    case Ok(record) =>
      (keys[draw.id := record],
       if outLen != KEY_LEN then Err(InvalidArgument) else Ok((draw.id, PublicKey(draw.secret))))
  }

  function GenerateKem(algo: HpkeAlgorithm, bindingPub: Bytes, secs: nat, keys: Keys, now: nat, draw: Draw, outLen: nat)
    : (r: (Keys, Result<(Uuid, Key32)>))
  {
    if |bindingPub| != KEY_LEN then (keys, Err(InvalidArgument))
    else
      match CreateBoundKemKey(algo, bindingPub, secs, now, draw)
      case Err(e) => (keys, Err(e))
      case Ok(record) =>
        (keys[draw.id := record],
         if outLen != KEY_LEN then Err(InvalidArgument) else Ok((draw.id, PublicKey(draw.secret))))
  }

  // ---------- decapsulate-and-reseal, open ----------

  function Reseal(c: Curve, record: KeyRecord, enc: Bytes, aad: Bytes, ephemeral: Key32, encLen: nat, ctLen: nat)
    : (r: Result<(Bytes, Bytes)>)
  {
    if !record.meta.spec.KemWithBindingPub? then Err(InternalError)
    else
      var secret :- Decaps(c, record.privateKey, enc);
      var sealed :- HpkeSeal(c, record.meta.spec.bindingPublicKey, secret, aad, record.meta.spec.algo, ephemeral);
      if encLen != |sealed.0| || ctLen != |sealed.1| then Err(InvalidArgument) else Ok(sealed)
  }

  function DecapAndSeal(c: Curve, keys: Keys, now: nat, id: Uuid, enc: Bytes, aad: Bytes, ephemeral: Key32,
                        encLen: nat, ctLen: nat)
    : Result<(Bytes, Bytes)>
  {
    match GetKey(keys, now, id)
    case None => Err(NotFound)
    case Some(record) => Reseal(c, record, enc, aad, ephemeral, encLen, ctLen)
  }

  function OpenWith(c: Curve, record: KeyRecord, enc: Bytes, ct: Bytes, aad: Bytes, outLen: nat): (r: Result<Bytes>) {
    if !record.meta.spec.Binding? then Err(InternalError)
    else
      var pt :- HpkeOpen(c, record.privateKey, enc, ct, aad, record.meta.spec.algo);
      if outLen != |pt| then Err(InvalidArgument) else Ok(pt)
  }

  function Open(c: Curve, keys: Keys, now: nat, id: Uuid, enc: Bytes, ct: Bytes, aad: Bytes, outLen: nat)
    : Result<Bytes>
  {
    match GetKey(keys, now, id)
    case None => Err(NotFound)
    case Some(record) => OpenWith(c, record, enc, ct, aad, outLen)
  }

  /** What resealing hands out: the decapsulated secret, boxed to the record's binding key. */
  lemma ResealBoxesSecret(c: Curve, record: KeyRecord, enc: Bytes, aad: Bytes, ephemeral: Key32, encLen: nat,
                          ctLen: nat)
    requires Reseal(c, record, enc, aad, ephemeral, encLen, ctLen).Ok?
    ensures var (sealEnc, ct) := Reseal(c, record, enc, aad, ephemeral, encLen, ctLen).value;
            var secret := Decaps(c, record.privateKey, enc);
            && record.meta.spec.KemWithBindingPub? && secret.Ok? && IsPublicKey(sealEnc)
            && ct == Octets(Box(record.meta.spec.bindingPublicKey, sealEnc, aad, secret.value), ctLen)
  {
    PublicKeyIsPublicKey(ephemeral);
  }

  /** A secret boxed to a binding record's public key opens with that record. */
  lemma BoxOpens(c: Curve, record: KeyRecord, sealEnc: Bytes, aad: Bytes, secret: Bytes)
    requires WellFormed(record) && record.meta.spec.Binding? && IsPublicKey(sealEnc) && |secret| == SECRET_BUF
    ensures var ct := Octets(Box(record.meta.spec.bindingPublicKey, sealEnc, aad, secret), SEALED_BUF);
            OpenWith(c, record, sealEnc, ct, aad, SECRET_BUF) == Ok(secret)
  {
    var box := Box(record.meta.spec.bindingPublicKey, sealEnc, aad, secret);
    assert Octets(box, SEALED_BUF)[0] == Part(box, 0);
  }

  /** A KEM record and the binding record it is tied to. */
  predicate Tied(kem: KeyRecord, binding: KeyRecord) {
    && WellFormed(kem) && WellFormed(binding)
    && kem.meta.spec.KemWithBindingPub? && binding.meta.spec.Binding?
    && kem.meta.spec.bindingPublicKey == binding.meta.spec.bindingPublicKey
  }

  /** What the tied pair does to any encapsulation, with the fixed 32-, 48- and 32-byte buffers:
      resealing succeeds exactly when decapsulation does, the box opens in its own context and no
      other, and what comes out is the decapsulated secret. */
  lemma PipelineDeliversSecret(c: Curve, kem: KeyRecord, binding: KeyRecord, enc: Bytes,
                               aad: Bytes, aad': Bytes, ephemeral: Key32)
    requires Tied(kem, binding)
    ensures var secret := Decaps(c, kem.privateKey, enc);
            var box := Reseal(c, kem, enc, aad, ephemeral, ENC_BUF, SEALED_BUF);
            && (box.Ok? <==> secret.Ok?)
            && (box.Ok? ==>
                  OpenWith(c, binding, box.value.0, box.value.1, aad', SECRET_BUF) ==
                  if aad == aad' then secret else Err(DecryptionFailure))
  {
    var secret := Decaps(c, kem.privateKey, enc);
    if secret.Ok? {
      PublicKeyIsPublicKey(binding.privateKey);
      OpensExactlyWhereSealed(c, kem.meta.spec.bindingPublicKey, secret.value, aad, kem.meta.spec.algo,
                              ephemeral, binding.privateKey, aad');
    }
  }

  /** A box resealed for one handle and algorithm opens for exactly that handle and algorithm. */
  lemma BoxOpensOnlyInItsContext(c: Curve, kem: KeyRecord, binding: KeyRecord, enc: Bytes, ephemeral: Key32,
                                 h: Uuid, algorithm: int, h': Uuid, algorithm': int)
    requires Tied(kem, binding) && Decaps(c, kem.privateKey, enc).Ok?
    ensures var box := Reseal(c, kem, enc, Aad(h, algorithm), ephemeral, ENC_BUF, SEALED_BUF);
            && box.Ok?
            && (OpenWith(c, binding, box.value.0, box.value.1, Aad(h', algorithm'), SECRET_BUF).Ok? <==>
                h == h' && algorithm == algorithm')
  {
    PipelineDeliversSecret(c, kem, binding, enc, Aad(h, algorithm), Aad(h', algorithm'), ephemeral);
    if Aad(h, algorithm) == Aad(h', algorithm') {
      AadInjective(h, algorithm, h', algorithm');
    }
  }

  /** End to end: a client's encapsulation to the returned public key comes back as its own secret. */
  lemma PipelineDeliversClientSecret(c: Curve, kem: KeyRecord, binding: KeyRecord, client: Key32,
                                     aad: Bytes, ephemeral: Key32)
    requires Tied(kem, binding)
    ensures var sent := Encap(c, kem.meta.spec.kemPublicKey, Some(client), client);
            && sent.Ok?
            && var box := Reseal(c, kem, sent.value.1, aad, ephemeral, ENC_BUF, SEALED_BUF);
            && box.Ok?
            && OpenWith(c, binding, box.value.0, box.value.1, aad, SECRET_BUF) == Ok(sent.value.0)
  {
    Agreement(c, kem.privateKey, Some(client), client);
    var enc := Encap(c, kem.meta.spec.kemPublicKey, Some(client), client).value.1;
    PipelineDeliversSecret(c, kem, binding, enc, aad, aad, ephemeral);
  }

  // ---------- the cores as they run: registries and caller buffers updated in place ----------

  /** A key of the drawn id and secret that lives `secs` from now. */
  function NewRecord(draw: Draw, now: nat, secs: nat, spec: KeySpec): KeyRecord {
    KeyRecord(KeyMetadata(draw.id, now, now + secs * SECOND, spec), draw.secret)
  }

  method RunGenerateBinding(registry: KeyRegistry, algo: HpkeAlgorithm, secs: nat, now: nat, draw: Draw, outLen: nat)
    returns (r: Result<(Uuid, Key32)>)
    modifies registry
    ensures (registry.keys, r) == GenerateBinding(algo, secs, old(registry.keys), now, draw, outLen)
    ensures var made := SupportedSuite(algo) && draw.vaultOk && now + secs * SECOND <= MAX_INSTANT;
            && registry.keys.Keys == old(registry.keys).Keys + (if made then {draw.id} else {})
            && (forall id :: id in old(registry.keys) && !(made && id == draw.id) ==>
                  registry.keys[id] == old(registry.keys)[id])
            && (made ==> registry.keys[draw.id] == NewRecord(draw, now, secs, Binding(algo, PublicKey(draw.secret))))
            && (r.Ok? <==> made && outLen == 32)
            && (r.Ok? ==> r.value == (draw.id, PublicKey(draw.secret)))
            && (r.Err? ==> r.status == if made then InvalidArgument
                                       else if SupportedSuite(algo) && !draw.vaultOk then CryptoError
                                       else UnsupportedAlgorithm)
  {
    var created := CreateBindingKey(algo, secs, now, draw);
    if created.Err? {
      return Err(created.status);
    }
    registry.AddKey(created.value);
    if outLen != |created.value.meta.spec.bindingPublicKey| {
      return Err(InvalidArgument);
    }
    r := Ok((created.value.meta.id, created.value.meta.spec.bindingPublicKey));
  }

  method RunGenerateKem(registry: KeyRegistry, algo: HpkeAlgorithm, bindingPub: Bytes, secs: nat, now: nat,
                        draw: Draw, outLen: nat)
    returns (r: Result<(Uuid, Key32)>)
    modifies registry
    ensures (registry.keys, r) == GenerateKem(algo, bindingPub, secs, old(registry.keys), now, draw, outLen)
    ensures var fits := now + secs * SECOND <= MAX_INSTANT;
            var made := |bindingPub| == 32 && SupportedSuite(algo) && draw.vaultOk && fits;
            && registry.keys.Keys == old(registry.keys).Keys + (if made then {draw.id} else {})
            && (forall id :: id in old(registry.keys) && !(made && id == draw.id) ==>
                  registry.keys[id] == old(registry.keys)[id])
            && (made ==> registry.keys[draw.id] ==
                         NewRecord(draw, now, secs, KemWithBindingPub(algo, PublicKey(draw.secret), bindingPub)))
            && (r.Ok? <==> made && outLen == 32)
            && (r.Ok? ==> r.value == (draw.id, PublicKey(draw.secret)))
            && (r.Err? ==> r.status == if made || |bindingPub| != 32 then InvalidArgument
                                       else if algo.kem != 1 then InvalidKey
                                       else if SupportedSuite(algo) && !draw.vaultOk then CryptoError
                                       else UnsupportedAlgorithm)
  {
    if |bindingPub| != KEY_LEN {
      return Err(InvalidArgument);
    }
    var created := CreateBoundKemKey(algo, bindingPub, secs, now, draw);
    if created.Err? {
      return Err(created.status);
    }
    registry.AddKey(created.value);
    if outLen != |created.value.meta.spec.kemPublicKey| {
      return Err(InvalidArgument);
    }
    r := Ok((created.value.meta.id, created.value.meta.spec.kemPublicKey));
  }

  method RunDestroy(registry: KeyRegistry, id: Uuid) returns (error: Option<Status>)
    modifies registry
    ensures registry.keys == old(registry.keys) - {id}
    ensures error == if id in old(registry.keys) then None else Some(NotFound)
  {
    var removed := registry.RemoveKey(id);
    error := if removed.None? then Some(NotFound) else None;
  }

  method CopyInto(src: Bytes, dst: array<Octet>)
    requires |src| == dst.Length
    modifies dst
    ensures dst[..] == src
  {
    for i := 0 to dst.Length
      invariant forall j :: 0 <= j < i ==> dst[j] == src[j]
    {
      dst[i] := src[i];
    }
  }

  /** On any failure the caller's buffers keep what they held. */
  method RunDecapAndSeal(c: Curve, registry: KeyRegistry, now: nat, id: Uuid, enc: Bytes, aad: Bytes,
                         ephemeral: Key32, outEnc: array<Octet>, outCt: array<Octet>)
    returns (error: Option<Status>)
    requires outEnc != outCt
    modifies outEnc, outCt
    ensures match DecapAndSeal(c, registry.keys, now, id, enc, aad, ephemeral, outEnc.Length, outCt.Length)
            case Ok(sealed) => error == None && outEnc[..] == sealed.0 && outCt[..] == sealed.1
            case Err(e) => error == Some(e) && outEnc[..] == old(outEnc[..]) && outCt[..] == old(outCt[..])
  {
    var found := registry.GetLive(id, now);
    if found.None? {
      return Some(NotFound);
    }
    var record := found.value;
    if !record.meta.spec.KemWithBindingPub? {
      return Some(InternalError);
    }
    var secret := Decaps(c, record.privateKey, enc);
    if secret.Err? {
      return Some(secret.status);
    }
    var sealed := HpkeSeal(c, record.meta.spec.bindingPublicKey, secret.value, aad, record.meta.spec.algo, ephemeral);
    if sealed.Err? {
      return Some(sealed.status);
    }
    if outEnc.Length != |sealed.value.0| || outCt.Length != |sealed.value.1| {
      return Some(InvalidArgument);
    }
    CopyInto(sealed.value.0, outEnc);
    CopyInto(sealed.value.1, outCt);
    error := None;
  }

  method RunOpen(c: Curve, registry: KeyRegistry, now: nat, id: Uuid, enc: Bytes, ct: Bytes, aad: Bytes,
                 out: array<Octet>)
    returns (error: Option<Status>)
    modifies out
    ensures match Open(c, registry.keys, now, id, enc, ct, aad, out.Length)
            case Ok(pt) => error == None && out[..] == pt
            case Err(e) => error == Some(e) && out[..] == old(out[..])
  {
    var found := registry.GetLive(id, now);
    if found.None? {
      return Some(NotFound);
    }
    var record := found.value;
    if !record.meta.spec.Binding? {
      return Some(InternalError);
    }
    var pt := HpkeOpen(c, record.privateKey, enc, ct, aad, record.meta.spec.algo);
    if pt.Err? {
      return Some(pt.status);
    }
    if out.Length != |pt.value| {
      return Some(InvalidArgument);
    }
    CopyInto(pt.value, out);
    error := None;
  }
}
