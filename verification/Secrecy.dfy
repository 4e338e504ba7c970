/**
  What crosses the connection between daemon and KPS gives no secret away. An observer may
  run any program of primitives over everything sent in a whole run, and over randomness of
  his own; whatever he computes, it contains no byte of a private key, nor of a
  decapsulated secret whose encapsulation he did not make himself.
  */
module Secrecy {
  import opened Statuses
  import opened SymbolicBytes
  import opened Handles
  import opened X25519
  import opened DecapsContext
  import opened KeyTypes
  import opened Custody
  import opened Protocol
  import opened Invariant
  import opened Guarantees
  import opened Availability

  // ---------- the observer ----------

  /** A program over observed messages. */
  datatype Recipe =
    | Seen(message: nat)
    | Known(bytes: seq<byte>)
    | Own(seed: nat, len: nat)                                     // randomness of the observer's own
    | Concat(left: Recipe, right: Recipe)
    | Cut(whole: Recipe, from: nat, to: nat)
    | PublicOf(secret: Recipe)
    | Exchange(secret: Recipe, point: Recipe)                      // X25519
    | HkdfExtract(salt: Recipe, ikm: Recipe)
    | HkdfExpand(prk: Recipe, info: Recipe, len: nat)
    | Seal(recipient: Recipe, plaintext: Recipe, aad: Recipe, ephemeral: Recipe)
    | Unseal(secret: Recipe, enc: Recipe, box: Recipe, aad: Recipe)
    | Reopen(ephemeral: Recipe, box: Recipe)                       // as whoever sealed it

  /** The plaintext of a whole box whose encapsulated key is that of `ephemeral`. */
  function ReopenBox(ephemeral: Bytes, box: Bytes): Option<Bytes> {
    if && |box| > 0 && box[0].Part? && box[0].of.Box?
       && box == Octets(box[0].of, |box[0].of.plaintext| + TAG_LEN)
       && box[0].of.enc == PublicKey(ephemeral)
    then Some(box[0].of.plaintext)
    else None
  }

  /** What a recipe yields; randomness numbered in `hidden` is not the observer's. */
  function Compute(c: Curve, hidden: set<nat>, seen: seq<Bytes>, r: Recipe): Option<Bytes>
    decreases r
  {
    match r
    case Seen(i) => if i < |seen| then Some(seen[i]) else None
    case Known(bytes) => Some(Literal(bytes))
    case Own(seed, len) => if seed in hidden then None else Some(Octets(Random(seed), len))
    case Concat(a, b) =>
      (match (Compute(c, hidden, seen, a), Compute(c, hidden, seen, b))
       case (Some(x), Some(y)) => Some(x + y)
       case _ => None)
    case Cut(a, lo, hi) =>
      (match Compute(c, hidden, seen, a)
       case Some(x) => if lo <= hi <= |x| then Some(x[lo..hi]) else None
       case None => None)
    case PublicOf(a) =>
      (match Compute(c, hidden, seen, a)
       case Some(x) => Some(PublicKey(x))
       case None => None)
    case Exchange(a, b) =>
      (match (Compute(c, hidden, seen, a), Compute(c, hidden, seen, b))
       case (Some(x), Some(y)) => if |y| == KEY_LEN then c.SharedKey(x, y) else None
       case _ => None)
    case HkdfExtract(a, b) =>
      (match (Compute(c, hidden, seen, a), Compute(c, hidden, seen, b))
       case (Some(x), Some(y)) => Some(Octets(Extracted(x, y), 32))
       case _ => None)
    case HkdfExpand(a, b, len) =>
      (match (Compute(c, hidden, seen, a), Compute(c, hidden, seen, b))
       case (Some(x), Some(y)) => Some(Octets(Expanded(x, y), len))
       case _ => None)
    case Seal(pk, pt, aad, e) =>
      (match (Compute(c, hidden, seen, pk), Compute(c, hidden, seen, pt),
              Compute(c, hidden, seen, aad), Compute(c, hidden, seen, e))
       case (Some(k), Some(p), Some(a), Some(x)) => SealBox(c, k, p, a, x)
       case _ => None)
    case Unseal(sk, enc, box, aad) =>
      (match (Compute(c, hidden, seen, sk), Compute(c, hidden, seen, enc),
              Compute(c, hidden, seen, box), Compute(c, hidden, seen, aad))
       case (Some(k), Some(e), Some(b), Some(a)) => UnsealBox(c, k, e, b, a)
       case _ => None)
    case Reopen(e, box) =>
      (match (Compute(c, hidden, seen, e), Compute(c, hidden, seen, box))
       case (Some(x), Some(b)) => ReopenBox(x, b)
       case _ => None)
  }

  function SealBox(c: Curve, pk: Bytes, pt: Bytes, aad: Bytes, ephemeral: Bytes): Option<Bytes> {
    if |pk| != KEY_LEN || |ephemeral| != KEY_LEN then None
    else match HpkeSeal(c, pk, pt, aad, SUITE, ephemeral) case Ok((_, ct)) => Some(ct) case Err(_) => None
  }

  function UnsealBox(c: Curve, sk: Bytes, enc: Bytes, box: Bytes, aad: Bytes): Option<Bytes> {
    match HpkeOpen(c, sk, enc, box, aad, SUITE) case Ok(pt) => Some(pt) case Err(_) => None
  }

  // ---------- what may be known ----------

  predicate SafeOctet(hidden: set<nat>, o: Octet)
    decreases o
  {
    o.Lit? || SafeTerm(hidden, o.of)
  }

  predicate SafeBytes(hidden: set<nat>, b: Bytes)
    decreases b
  {
    forall o :: o in b ==> SafeOctet(hidden, o)
  }

  /** The point is the public key of a secret that may not be known. */
  predicate Guarded(hidden: set<nat>, point: Bytes)
    decreases point
  {
    |point| > 0 && GuardedBy(hidden, point[0])
  }

  predicate GuardedBy(hidden: set<nat>, o: Octet)
    decreases o
  {
    o.Part? && o.of.Public? && !SafeBytes(hidden, o.of.secret)
  }

  /** A key exchange may be known if either side's secret may; a box, if what is in it may or if
      neither end's secret may. */
  predicate SafeTerm(hidden: set<nat>, t: Term)
    decreases t
  {
    match t
    case Random(seed) => seed !in hidden
    case Public(_) => true
    case Shared(keys) => exists k :: k in keys && k.Public? && SafeBytes(hidden, k.secret)
    case SharedWith(secret, _) => SafeBytes(hidden, secret)
    case Extracted(salt, ikm) => SafeBytes(hidden, salt) && SafeBytes(hidden, ikm)
    case Expanded(prk, info) => SafeBytes(hidden, prk) && SafeBytes(hidden, info)
    case Box(recipient, enc, _, pt) => SafeBytes(hidden, pt) || (Guarded(hidden, recipient) && Guarded(hidden, enc))
  }

  lemma SafeOctetsIff(hidden: set<nat>, t: Term, n: nat)
    requires 0 < n
    ensures SafeBytes(hidden, Octets(t, n)) <==> SafeTerm(hidden, t)
    ensures !SafeTerm(hidden, t) ==> forall o :: o in Octets(t, n) ==> !SafeOctet(hidden, o)
  {
    assert Octets(t, n)[0] == Part(t, 0) && Octets(t, n)[0] in Octets(t, n);
  }

  lemma SafeOctetsOf(hidden: set<nat>, t: Term, n: nat)
    requires SafeTerm(hidden, t)
    ensures SafeBytes(hidden, Octets(t, n))
  {
  }

  lemma PublicIsSafe(hidden: set<nat>, secret: Bytes)
    ensures SafeBytes(hidden, PublicKey(secret))
  {
    SafeOctetsOf(hidden, Public(secret), KEY_LEN);
  }

  lemma GuardedKey(hidden: set<nat>, secret: Bytes)
    ensures Guarded(hidden, PublicKey(secret)) <==> !SafeBytes(hidden, secret)
  {
    PublicKeyIsPublicKey(secret);
  }

  // ---------- what is computed may be known ----------

  lemma ExchangeIsSafe(c: Curve, hidden: set<nat>, secret: Bytes, point: Bytes)
    requires SafeBytes(hidden, secret) && |point| == KEY_LEN && c.SharedKey(secret, point).Some?
    ensures SafeBytes(hidden, c.SharedKey(secret, point).value)
  {
    if IsPublicKey(point) {
      var t := Shared({Public(secret), point[0].of});
      assert Public(secret) in t.keys;
      SafeOctetsOf(hidden, t, KEY_LEN);
    } else {
      SafeOctetsOf(hidden, SharedWith(secret, point), KEY_LEN);
    }
  }

  lemma SealedIsSafe(c: Curve, hidden: set<nat>, pk: Bytes, pt: Bytes, aad: Bytes, ephemeral: Bytes)
    requires SafeBytes(hidden, pt) && SealBox(c, pk, pt, aad, ephemeral).Some?
    ensures SafeBytes(hidden, SealBox(c, pk, pt, aad, ephemeral).value)
  {
    SafeOctetsOf(hidden, Box(pk, PublicKey(ephemeral), aad, pt), |pt| + TAG_LEN);
  }

  /** A box sealed to a key whose secret may be known holds nothing that may not. */
  lemma UnsealedIsSafe(c: Curve, hidden: set<nat>, sk: Bytes, enc: Bytes, box: Bytes, aad: Bytes)
    requires SafeBytes(hidden, sk) && SafeBytes(hidden, box) && UnsealBox(c, sk, enc, box, aad).Some?
    ensures SafeBytes(hidden, UnsealBox(c, sk, enc, box, aad).value)
  {
    var pt := UnsealBox(c, sk, enc, box, aad).value;
    OpenedWasSealed(c, sk, enc, box, aad, SUITE);
    SafeOctetsIff(hidden, Box(PublicKey(sk), enc, aad, pt), |pt| + TAG_LEN);
    GuardedKey(hidden, sk);
  }

  lemma ReopenedIsSafe(hidden: set<nat>, ephemeral: Bytes, box: Bytes)
    requires SafeBytes(hidden, ephemeral) && SafeBytes(hidden, box) && ReopenBox(ephemeral, box).Some?
    ensures SafeBytes(hidden, ReopenBox(ephemeral, box).value)
  {
    SafeOctetsIff(hidden, box[0].of, |box|);
    GuardedKey(hidden, ephemeral);
  }

  predicate AllSafe(hidden: set<nat>, seen: seq<Bytes>) {
    forall i :: 0 <= i < |seen| ==> SafeBytes(hidden, seen[i])
  }

  /** The recipe yields nothing, or something that may be known. */
  predicate YieldsSafe(c: Curve, hidden: set<nat>, seen: seq<Bytes>, r: Recipe) {
    var out := Compute(c, hidden, seen, r);
    out.Some? ==> SafeBytes(hidden, out.value)
  }

  lemma {:induction false} ComputedIsSafe(c: Curve, hidden: set<nat>, seen: seq<Bytes>, r: Recipe)
    requires AllSafe(hidden, seen)
    ensures YieldsSafe(c, hidden, seen, r)
    decreases r
  {
    match r
    case Seen(_) =>
    case Known(_) =>
    case Own(seed, len) => if seed !in hidden { SafeOctetsOf(hidden, Random(seed), len); }
    case Concat(a, b) =>
      ComputedIsSafe(c, hidden, seen, a);
      ComputedIsSafe(c, hidden, seen, b);
    case Cut(a, _, _) => ComputedIsSafe(c, hidden, seen, a);
    case PublicOf(a) =>
      if Compute(c, hidden, seen, a).Some? { PublicIsSafe(hidden, Compute(c, hidden, seen, a).value); }
    case Exchange(a, b) =>
      ComputedIsSafe(c, hidden, seen, a);
      if Compute(c, hidden, seen, r).Some? {
        ExchangeIsSafe(c, hidden, Compute(c, hidden, seen, a).value, Compute(c, hidden, seen, b).value);
      }
    case HkdfExtract(a, b) =>
      ComputedIsSafe(c, hidden, seen, a);
      ComputedIsSafe(c, hidden, seen, b);
      if Compute(c, hidden, seen, r).Some? {
        SafeOctetsOf(hidden, Extracted(Compute(c, hidden, seen, a).value, Compute(c, hidden, seen, b).value), 32);
      }
    case HkdfExpand(a, b, len) =>
      ComputedIsSafe(c, hidden, seen, a);
      ComputedIsSafe(c, hidden, seen, b);
      if Compute(c, hidden, seen, r).Some? {
        SafeOctetsOf(hidden, Expanded(Compute(c, hidden, seen, a).value, Compute(c, hidden, seen, b).value), len);
      }
    case Seal(pk, pt, aad, e) =>
      ComputedIsSafe(c, hidden, seen, pt);
      if Compute(c, hidden, seen, r).Some? {
        SealedIsSafe(c, hidden, Compute(c, hidden, seen, pk).value, Compute(c, hidden, seen, pt).value,
                     Compute(c, hidden, seen, aad).value, Compute(c, hidden, seen, e).value);
      }
    case Unseal(sk, enc, box, aad) =>
      ComputedIsSafe(c, hidden, seen, sk);
      ComputedIsSafe(c, hidden, seen, box);
      if Compute(c, hidden, seen, r).Some? {
        UnsealedIsSafe(c, hidden, Compute(c, hidden, seen, sk).value, Compute(c, hidden, seen, enc).value,
                       Compute(c, hidden, seen, box).value, Compute(c, hidden, seen, aad).value);
      }
    case Reopen(e, box) =>
      ComputedIsSafe(c, hidden, seen, e);
      ComputedIsSafe(c, hidden, seen, box);
      if Compute(c, hidden, seen, r).Some? {
        ReopenedIsSafe(hidden, Compute(c, hidden, seen, e).value, Compute(c, hidden, seen, box).value);
      }
  }

  // ---------- what must not be known ----------

  /** A key drawn from randomness that is not the observer's. */
  predicate HiddenKey(hidden: set<nat>, key: Bytes) {
    exists n :: n in hidden && key == Octets(Random(n), KEY_LEN)
  }

  /** No byte of b may be known. */
  predicate Unknowable(hidden: set<nat>, b: Bytes) {
    forall o :: o in b ==> !SafeOctet(hidden, o)
  }

  lemma HiddenKeyIsUnknowable(hidden: set<nat>, key: Bytes)
    requires HiddenKey(hidden, key)
    ensures Unknowable(hidden, key) && !SafeBytes(hidden, key)
  {
    var n :| n in hidden && key == Octets(Random(n), KEY_LEN);
    SafeOctetsIff(hidden, Random(n), KEY_LEN);
  }

  /** Whoever made the encapsulation used a secret that may be known. */
  predicate Exposed(hidden: set<nat>, enc: Bytes) {
    IsPublicKey(enc) && SafeBytes(hidden, enc[0].of.secret)
  }

  lemma ExchangeIsUnknowable(c: Curve, hidden: set<nat>, key: Bytes, enc: Bytes)
    requires !SafeBytes(hidden, key) && |enc| == KEY_LEN && !Exposed(hidden, enc) && c.SharedKey(key, enc).Some?
    ensures !SafeBytes(hidden, c.SharedKey(key, enc).value)
  {
    if IsPublicKey(enc) {
      SafeOctetsIff(hidden, Shared({Public(key), enc[0].of}), KEY_LEN);
    } else {
      SafeOctetsIff(hidden, SharedWith(key, enc), KEY_LEN);
    }
  }

  lemma UnsafePart(hidden: set<nat>, left: Bytes, right: Bytes)
    ensures SafeBytes(hidden, left + right) <==> SafeBytes(hidden, left) && SafeBytes(hidden, right)
  {
  }

  /** What is derived from an exchange that may not be known may not be known. */
  lemma DerivedIsUnknowable(hidden: set<nat>, dh: Bytes, ctx: Bytes)
    requires !SafeBytes(hidden, dh)
    ensures Unknowable(hidden, ExtractAndExpand(dh, ctx).value)
  {
    UnsafePart(hidden, HPKE_V1 + SUITE_ID + EAE_PRK, dh);
    var extracted := Extracted([], HPKE_V1 + SUITE_ID + EAE_PRK + dh);
    SafeOctetsIff(hidden, extracted, 32);
    var info := BigEndian16(32) + HPKE_V1 + SUITE_ID + SHARED_SECRET + ctx;
    SafeOctetsIff(hidden, Expanded(Octets(extracted, 32), info), 32);
  }

  lemma DecapsulatedIsUnknowable(c: Curve, hidden: set<nat>, key: Bytes, enc: Bytes)
    requires HiddenKey(hidden, key) && Decaps(c, key, enc).Ok? && !Exposed(hidden, enc)
    ensures Unknowable(hidden, Decaps(c, key, enc).value)
  {
    HiddenKeyIsUnknowable(hidden, key);
    ExchangeIsUnknowable(c, hidden, key, enc);
    DerivedIsUnknowable(hidden, c.SharedKey(key, enc).value, enc + PublicKey(key));
  }

  // ---------- what crosses the connection ----------

  /** The messages of one step, requests and replies, but for numbers that anyone can guess. */
  function Wire(s: State, e: Event): seq<Bytes>
    requires Enabled(s, e)
  {
    match e
    case GenKem(r, _, draw) =>
      var q := Apply(s, e).requests[r];
      [s.requests[r].bindingPub] + if q.GenKeyed? then [Text(UuidText(q.h)), q.kemPub] else []
    case DecSeal(r, _, _) =>
      var q, q' := s.requests[r], Apply(s, e).requests[r];
      [Text(UuidText(q.h)), q.enc, Aad(q.h, q.algorithm)] + if q'.DecSealed? then [q'.sealEnc, q'.sealedCt] else []
    case DesAtKps(r, _) => [Text(UuidText(s.requests[r].h))]
    case StrayKem(bindingPub, _, draw) => [bindingPub, Text(UuidText(draw.id)), PublicKey(draw.secret)]
    case StrayDestroy(h) => [Text(UuidText(h))]
    case _ => []
  }

  function WireOf(s: State, events: seq<Event>): seq<Bytes>
    requires CanRun(s, events)
    decreases |events|
  {
    if |events| == 0 then [] else Wire(s, events[0]) + WireOf(Apply(s, events[0]), events[1..])
  }

  /** Keys are drawn from randomness the observer does not have, and what callers send is not itself
      something that may not be known. */
  predicate Honest(hidden: set<nat>, e: Event) {
    match e
    case GenBind(_, _, draw) => HiddenKey(hidden, draw.secret)
    case GenKem(_, _, draw) => HiddenKey(hidden, draw.secret)
    case DecLook(_, _, _, enc) => SafeBytes(hidden, enc)
    case DecSeal(_, _, ephemeral) => HiddenKey(hidden, ephemeral)
    case StrayKem(bindingPub, _, draw) => SafeBytes(hidden, bindingPub) && HiddenKey(hidden, draw.secret)
    case _ => true
  }

  predicate AllHonest(hidden: set<nat>, events: seq<Event>) {
    forall i :: 0 <= i < |events| ==> Honest(hidden, events[i])
  }

  predicate KeysHidden(s: State, hidden: set<nat>) {
    && (forall h :: h in s.past.kems ==> HiddenKey(hidden, s.past.kems[h].record.privateKey))
    && (forall b :: b in s.past.bindings ==> HiddenKey(hidden, s.past.bindings[b].record.privateKey))
    && (forall r :: r in s.requests && s.requests[r].DecLooked? ==> SafeBytes(hidden, s.requests[r].enc))
  }

  lemma StepHides(s: State, e: Event, hidden: set<nat>)
    requires Enabled(s, e) && Honest(hidden, e) && KeysHidden(s, hidden)
    ensures KeysHidden(Apply(s, e), hidden)
  {
    if Background(e) {
      if e.StrayKem? {
        StrayHides(s, e, hidden);
      } else {
        BackgroundLoses(s, e);
      }
    } else if e.GenBind? || e.GenKem? || e.GenMap? {
      GenerateHides(s, e, hidden);
    } else if e.DecLook? || e.DecSeal? || e.DecOpen? {
      DecapsHides(s, e, hidden);
    } else {
      DestroyHides(s, e, hidden);
    }
  }

  lemma StrayHides(s: State, e: Event, hidden: set<nat>)
    requires Enabled(s, e) && Honest(hidden, e) && KeysHidden(s, hidden) && e.StrayKem?
    ensures KeysHidden(Apply(s, e), hidden)
  {
  }

  lemma GenerateHides(s: State, e: Event, hidden: set<nat>)
    requires Enabled(s, e) && Honest(hidden, e) && KeysHidden(s, hidden) && (e.GenBind? || e.GenKem? || e.GenMap?)
    ensures KeysHidden(Apply(s, e), hidden)
  {
  }

  /** A decaps makes no key, and holds an encapsulation only if it was sent one. */
  lemma DecapsHides(s: State, e: Event, hidden: set<nat>)
    requires Enabled(s, e) && Honest(hidden, e) && KeysHidden(s, hidden) && (e.DecLook? || e.DecSeal? || e.DecOpen?)
    ensures KeysHidden(Apply(s, e), hidden)
  {
    var s' := Apply(s, e);
    assert s'.requests[e.r].DecLooked? ==> e.DecLook? && s'.requests[e.r].enc == e.enc;
  }

  lemma DestroyHides(s: State, e: Event, hidden: set<nat>)
    requires Enabled(s, e) && KeysHidden(s, hidden) && (e.DesLook? || e.DesAtKps? || e.DesAtWsd? || e.DesUnmap?)
    ensures KeysHidden(Apply(s, e), hidden)
  {
  }

  lemma TextIsSafe(hidden: set<nat>, text: string)
    ensures SafeBytes(hidden, Text(text))
  {
  }

  /** The box of a reseal is guarded at both ends. */
  lemma SealWireSafe(s: State, r: nat, reachable: bool, ephemeral: Key32, hidden: set<nat>)
    requires RegistriesOk(s) && BirthsOk(s) && PairsOk(s) && KeysHidden(s, hidden)
    requires Enabled(s, DecSeal(r, reachable, ephemeral)) && RequestOk(s, r) && HiddenKey(hidden, ephemeral)
    ensures AllSafe(hidden, Wire(s, DecSeal(r, reachable, ephemeral)))
  {
    var q, q' := s.requests[r], DecSealStep(s, r, reachable, ephemeral).requests[r];
    TextIsSafe(hidden, UuidText(q.h));
    TextIsSafe(hidden, ContextText(q.h, q.algorithm));
    if q'.DecSealed? {
      SealedByReseal(s, r, reachable, ephemeral);
      assert Tied(s.past.kems[q.h].record, s.past.bindings[q.b].record);
      ResealedIsSafe(s.curve, s.kps.keys[q.h], s.past.bindings[q.b].record, q.enc, Aad(q.h, q.algorithm), ephemeral,
                     hidden);
    }
    SealMessagesSafe(s, r, reachable, ephemeral, hidden);
  }

  lemma SealedByReseal(s: State, r: nat, reachable: bool, ephemeral: Key32)
    requires Enabled(s, DecSeal(r, reachable, ephemeral))
    requires DecSealStep(s, r, reachable, ephemeral).requests[r].DecSealed?
    ensures var q, q' := s.requests[r], DecSealStep(s, r, reachable, ephemeral).requests[r];
            && q.h in s.kps.keys
            && Reseal(s.curve, s.kps.keys[q.h], q.enc, Aad(q.h, q.algorithm), ephemeral, ENC_BUF, SEALED_BUF) ==
               Ok((q'.sealEnc, q'.sealedCt))
  {
  }

  lemma SealMessagesSafe(s: State, r: nat, reachable: bool, ephemeral: Key32, hidden: set<nat>)
    requires Enabled(s, DecSeal(r, reachable, ephemeral))
    requires var q, q' := s.requests[r], DecSealStep(s, r, reachable, ephemeral).requests[r];
             && SafeBytes(hidden, Text(UuidText(q.h)))
             && SafeBytes(hidden, q.enc) && SafeBytes(hidden, Aad(q.h, q.algorithm))
             && (q'.DecSealed? ==> SafeBytes(hidden, q'.sealEnc) && SafeBytes(hidden, q'.sealedCt))
    ensures AllSafe(hidden, Wire(s, DecSeal(r, reachable, ephemeral)))
  {
  }

  lemma ResealedIsSafe(c: Curve, kem: KeyRecord, binding: KeyRecord, enc: Bytes, aad: Bytes, ephemeral: Key32,
                       hidden: set<nat>)
    requires Tied(kem, binding) && HiddenKey(hidden, binding.privateKey) && HiddenKey(hidden, ephemeral)
    requires Reseal(c, kem, enc, aad, ephemeral, ENC_BUF, SEALED_BUF).Ok?
    ensures var (sealEnc, ct) := Reseal(c, kem, enc, aad, ephemeral, ENC_BUF, SEALED_BUF).value;
            SafeBytes(hidden, sealEnc) && SafeBytes(hidden, ct)
  {
    var secret := Decaps(c, kem.privateKey, enc).value;
    HiddenKeyIsUnknowable(hidden, binding.privateKey);
    HiddenKeyIsUnknowable(hidden, ephemeral);
    GuardedKey(hidden, binding.privateKey);
    GuardedKey(hidden, ephemeral);
    PublicIsSafe(hidden, ephemeral);
    SafeOctetsOf(hidden, Box(PublicKey(binding.privateKey), PublicKey(ephemeral), aad, secret), SEALED_BUF);
  }

  lemma GenWireSafe(s: State, r: nat, reachable: bool, draw: Draw, hidden: set<nat>)
    requires BirthsOk(s) && Enabled(s, GenKem(r, reachable, draw)) && RequestOk(s, r)
    ensures AllSafe(hidden, Wire(s, GenKem(r, reachable, draw)))
  {
    PublicIsSafe(hidden, s.past.bindings[s.requests[r].b].record.privateKey);
    PublicIsSafe(hidden, draw.secret);
    TextIsSafe(hidden, UuidText(draw.id));
  }

  lemma StepWireSafe(s: State, e: Event, hidden: set<nat>)
    requires Inv(s) && Enabled(s, e) && Honest(hidden, e) && KeysHidden(s, hidden)
    ensures AllSafe(hidden, Wire(s, e))
  {
    if e.GenKem? {
      assert RequestOk(s, e.r);
      GenWireSafe(s, e.r, e.reachable, e.draw, hidden);
    } else if e.DecSeal? {
      assert RequestOk(s, e.r);
      SealWireSafe(s, e.r, e.reachable, e.ephemeral, hidden);
    } else {
      OtherWireSafe(s, e, hidden);
    }
  }

  lemma OtherWireSafe(s: State, e: Event, hidden: set<nat>)
    requires Enabled(s, e) && Honest(hidden, e) && !e.GenKem? && !e.DecSeal?
    ensures AllSafe(hidden, Wire(s, e))
  {
    match e
    case DesAtKps(r, _) => TextIsSafe(hidden, UuidText(s.requests[r].h));
    case StrayKem(_, _, draw) =>
      TextIsSafe(hidden, UuidText(draw.id));
      PublicIsSafe(hidden, draw.secret);
    case StrayDestroy(h) => TextIsSafe(hidden, UuidText(h));
    case _ =>
  }

  lemma {:induction false} RunWireSafe(s: State, events: seq<Event>, hidden: set<nat>)
    requires Inv(s) && CanRun(s, events) && AllHonest(hidden, events) && KeysHidden(s, hidden)
    ensures AllSafe(hidden, WireOf(s, events)) && KeysHidden(Run(s, events), hidden)
    decreases |events|
  {
    if |events| > 0 {
      assert Honest(hidden, events[0]);
      StepWireSafe(s, events[0], hidden);
      StepHides(s, events[0], hidden);
      StepKeeps(s, events[0]);
      RunWireSafe(Apply(s, events[0]), events[1..], hidden);
    }
  }

  // ---------- the results ----------

  predicate Disjoint(a: Bytes, b: Bytes) {
    forall o :: o in a ==> o !in b
  }

  /** Whatever an observer of the connection computes from a whole run holds no byte of any private key. */
  lemma ObserverLearnsNoKey(c: Curve, events: seq<Event>, hidden: set<nat>, recipe: Recipe)
    requires CanRun(Init(c), events) && AllHonest(hidden, events)
    requires Compute(c, hidden, WireOf(Init(c), events), recipe).Some?
    ensures var out, s := Compute(c, hidden, WireOf(Init(c), events), recipe).value, Run(Init(c), events);
            && (forall h :: h in s.past.kems ==> Disjoint(out, s.past.kems[h].record.privateKey))
            && (forall b :: b in s.past.bindings ==> Disjoint(out, s.past.bindings[b].record.privateKey))
  {
    RunWireSafe(Init(c), events, hidden);
    ComputedIsSafe(c, hidden, WireOf(Init(c), events), recipe);
    var s := Run(Init(c), events);
    forall key | HiddenKey(hidden, key)
      ensures Unknowable(hidden, key)
    {
      HiddenKeyIsUnknowable(hidden, key);
    }
  }

  /** Nor any byte of what a KEM key makes of an encapsulation, unless its maker's secret was exposed. */
  lemma ObserverLearnsNoSecret(c: Curve, events: seq<Event>, hidden: set<nat>, recipe: Recipe, h: Uuid, enc: Bytes)
    requires CanRun(Init(c), events) && AllHonest(hidden, events)
    requires Compute(c, hidden, WireOf(Init(c), events), recipe).Some?
    requires var s := Run(Init(c), events); h in s.past.kems && SecretOf(s, h, enc).Ok?
    requires !Exposed(hidden, enc)
    ensures Disjoint(Compute(c, hidden, WireOf(Init(c), events), recipe).value,
                     SecretOf(Run(Init(c), events), h, enc).value)
  {
    RunWireSafe(Init(c), events, hidden);
    ComputedIsSafe(c, hidden, WireOf(Init(c), events), recipe);
    var s := Run(Init(c), events);
    DecapsulatedIsUnknowable(s.curve, hidden, s.past.kems[h].record.privateKey, enc);
  }

  /** In particular no observer computes the secret that a decaps of a hidden client's encapsulation answered. */
  lemma DeliveredSecretIsNotComputed(c: Curve, events: seq<Event>, hidden: set<nat>, recipe: Recipe, r: nat,
                                     client: Key32)
    requires CanRun(Init(c), events) && AllHonest(hidden, events) && HiddenKey(hidden, client)
    requires var s := Run(Init(c), events);
             r in s.requests && s.requests[r].DecDone? && s.requests[r].enc == PublicKey(client)
    ensures Compute(c, hidden, WireOf(Init(c), events), recipe) != Some(Run(Init(c), events).requests[r].secret)
  {
    var s := Reached(c, events);
    var q := s.requests[r];
    assert RequestOk(s, r);
    HiddenKeyIsUnknowable(hidden, client);
    PublicKeyIsPublicKey(client);
    if Compute(c, hidden, WireOf(Init(c), events), recipe).Some? {
      ObserverLearnsNoSecret(c, events, hidden, recipe, q.h, q.enc);
      assert q.secret[0] in q.secret;
    }
  }

  // ---------- nothing is hidden from the observer by the model ----------

  /** The public key of every generated KEM key and the box of every decaps in flight have been seen. */
  predicate SeenAll(s: State, seen: seq<Bytes>) {
    forall r :: r in s.requests ==> SeenOf(s.requests[r], seen)
  }

  predicate SeenOf(q: Request, seen: seq<Bytes>) {
    match q
    case GenKeyed(_, _, kemPub) => kemPub in seen
    case GenDone(_, _, kemPub) => kemPub in seen
    case DecSealed(h, algorithm, enc, _, sealEnc, sealedCt) =>
      enc in seen && Aad(h, algorithm) in seen && sealEnc in seen && sealedCt in seen
    case _ => true
  }

  lemma MoverIsSeen(s: State, e: Event, seen: seq<Bytes>)
    requires Enabled(s, e) && !Background(e) && SeenAll(s, seen)
    ensures e.r in Apply(s, e).requests && SeenOf(Apply(s, e).requests[e.r], seen + Wire(s, e))
  {
    if e.GenKem? {
      GenKemIsSeen(s, e, seen);
    } else if e.DecSeal? {
      DecSealIsSeen(s, e, seen);
    } else {
      OtherMoverIsSeen(s, e, seen);
    }
  }

  lemma GenKemIsSeen(s: State, e: Event, seen: seq<Bytes>)
    requires Enabled(s, e) && e.GenKem?
    ensures e.r in Apply(s, e).requests && SeenOf(Apply(s, e).requests[e.r], seen + Wire(s, e))
  {
    var q := Apply(s, e).requests[e.r];
    if q.GenKeyed? {
      assert Wire(s, e)[2] == q.kemPub;
    }
  }

  lemma DecSealIsSeen(s: State, e: Event, seen: seq<Bytes>)
    requires Enabled(s, e) && e.DecSeal?
    ensures e.r in Apply(s, e).requests && SeenOf(Apply(s, e).requests[e.r], seen + Wire(s, e))
  {
    SealNotes(s, e.r, e.reachable, e.ephemeral);
    var q := Apply(s, e).requests[e.r];
    if q.DecSealed? {
      assert Wire(s, e)[1] == q.enc && Wire(s, e)[2] == Aad(q.h, q.algorithm);
      assert Wire(s, e)[3] == q.sealEnc && Wire(s, e)[4] == q.sealedCt;
    }
  }

  lemma OtherMoverIsSeen(s: State, e: Event, seen: seq<Bytes>)
    requires Enabled(s, e) && !Background(e) && SeenAll(s, seen) && !e.GenKem? && !e.DecSeal?
    ensures e.r in Apply(s, e).requests && SeenOf(Apply(s, e).requests[e.r], seen + Wire(s, e))
  {
    if e.GenMap? {
      assert SeenOf(s.requests[e.r], seen);
    }
  }

  lemma StepIsSeen(s: State, e: Event, seen: seq<Bytes>)
    requires Inv(s) && Enabled(s, e) && SeenAll(s, seen)
    ensures SeenAll(Apply(s, e), seen + Wire(s, e))
  {
    var moved := StepProgress(s, e);
    if !Background(e) {
      MoverIsSeen(s, e, seen);
    }
    SeenGrows(s, Apply(s, e), moved, seen, seen + Wire(s, e));
  }

  lemma SeenGrows(s: State, s': State, moved: set<nat>, seen: seq<Bytes>, more: seq<Bytes>)
    requires SeenAll(s, seen) && Progress(s, s', moved) && seen <= more
    requires forall r :: r in moved && r in s'.requests ==> SeenOf(s'.requests[r], more)
    ensures SeenAll(s', more)
  {
    assert forall m :: m in seen ==> m in more;
    forall r | r in s'.requests
      ensures SeenOf(s'.requests[r], more)
    {
      assert r !in moved ==> SeenOf(s.requests[r], seen);
    }
  }

  /** Over a whole run the observer sees every KEM public key returned and every box. */
  lemma {:induction false} RunIsSeen(s: State, events: seq<Event>, seen: seq<Bytes>)
    requires Inv(s) && CanRun(s, events) && SeenAll(s, seen)
    ensures SeenAll(Run(s, events), seen + WireOf(s, events))
    decreases |events|
  {
    if |events| == 0 {
      assert seen + WireOf(s, events) == seen;
    } else {
      StepIsSeen(s, events[0], seen);
      StepKeeps(s, events[0]);
      RunIsSeen(Apply(s, events[0]), events[1..], seen + Wire(s, events[0]));
      Reassociate(seen, Wire(s, events[0]), WireOf(Apply(s, events[0]), events[1..]));
    }
  }

  lemma Reassociate(a: seq<Bytes>, b: seq<Bytes>, c: seq<Bytes>)
    ensures a + b + c == a + (b + c)
  {
  }

  /** With either end's secret, a box on the wire gives up what is in it. */
  lemma EitherEndReadsBox(c: Curve, hidden: set<nat>, seen: seq<Bytes>, sk: Key32, ephemeral: Key32, context: string,
                          secret: Bytes, key: Recipe, i: nat, j: nat)
    requires i < |seen| && j < |seen| && seen[i] == PublicKey(ephemeral)
    requires seen[j] == Octets(Box(PublicKey(sk), PublicKey(ephemeral), Text(context), secret), |secret| + TAG_LEN)
    ensures Compute(c, hidden, seen, key) == Some(sk) ==>
              Compute(c, hidden, seen, Unseal(key, Seen(i), Seen(j), Known(Ascii(context)))) == Some(secret)
    ensures Compute(c, hidden, seen, key) == Some(ephemeral) ==>
              Compute(c, hidden, seen, Reopen(key, Seen(j))) == Some(secret)
  {
    var box := Box(PublicKey(sk), PublicKey(ephemeral), Text(context), secret);
    assert seen[j][0] == Part(box, 0);
    PublicKeyIsPublicKey(ephemeral);
    assert HpkeOpen(c, sk, seen[i], seen[j], Text(context), SUITE) == Ok(secret);
  }

  /** And what is in a reseal's box is the decapsulated secret. */
  lemma WireBoxHoldsSecret(c: Curve, kem: KeyRecord, binding: KeyRecord, enc: Bytes, context: string, ephemeral: Key32)
    requires Tied(kem, binding) && Decaps(c, kem.privateKey, enc).Ok?
    ensures var secret := Decaps(c, kem.privateKey, enc).value;
            Reseal(c, kem, enc, Text(context), ephemeral, ENC_BUF, SEALED_BUF) ==
            Ok((PublicKey(ephemeral),
                Octets(Box(PublicKey(binding.privateKey), PublicKey(ephemeral), Text(context), secret),
                       |secret| + TAG_LEN)))
  {
    PublicKeyIsPublicKey(binding.privateKey);
  }

  /** The observer's own means: randomness, cutting, and boxes between keys of his own. */
  lemma OwnMeansWork(c: Curve, hidden: set<nat>, seen: seq<Bytes>, n: nat, left: Recipe, right: Recipe, x: Bytes,
                     y: Bytes)
    requires n !in hidden
    requires Compute(c, hidden, seen, left) == Some(x) && Compute(c, hidden, seen, right) == Some(y)
    ensures Compute(c, hidden, seen, Own(n, 32)) == Some(Octets(Random(n), 32))
    ensures Compute(c, hidden, seen, Cut(Concat(left, right), |x|, |x| + |y|)) == Some(y)
  {
    var whole := Concat(left, right);
    assert Compute(c, hidden, seen, whole) == Some(x + y);
    assert (x + y)[|x|..|x| + |y|] == y;
  }

  lemma OwnBoxesWork(c: Curve, hidden: set<nat>, seen: seq<Bytes>, sk: Recipe, e: Recipe, text: Recipe, aad: Recipe,
                     key: Bytes, drawn: Bytes, x: Bytes, y: Bytes)
    requires |key| == |drawn| == KEY_LEN
    requires Compute(c, hidden, seen, sk) == Some(key) && Compute(c, hidden, seen, e) == Some(drawn)
    requires Compute(c, hidden, seen, text) == Some(x) && Compute(c, hidden, seen, aad) == Some(y)
    ensures Compute(c, hidden, seen, Unseal(sk, PublicOf(e), Seal(PublicOf(sk), text, aad, e), aad)) == Some(x)
  {
    PublicKeyIsPublicKey(key);
    var box := Seal(PublicOf(sk), text, aad, e);
    OpensExactlyWhereSealed(c, PublicKey(key), x, y, SUITE, drawn, key, y);
    var (enc, ct) := HpkeSeal(c, PublicKey(key), x, y, SUITE, drawn).value;
    assert Compute(c, hidden, seen, PublicOf(sk)) == Some(PublicKey(key));
    assert Compute(c, hidden, seen, PublicOf(e)) == Some(enc);
    assert Compute(c, hidden, seen, box) == Some(ct);
  }

  // ---------- such runs exist ----------

  function Drawn(n: nat): Key32 {
    Octets(Random(n), 32)
  }

  lemma DrawnIsHidden(hidden: set<nat>, n: nat)
    requires n in hidden
    ensures HiddenKey(hidden, Drawn(n))
  {
  }

  /** A key generated by a fresh daemon, ready to serve. */
  lemma HonestKey(c: Curve, hidden: set<nat>) returns (events: seq<Event>)
    requires {1, 2} <= hidden
    ensures CanRun(Init(c), events) && AllHonest(hidden, events)
    ensures var s := Run(Init(c), events);
            && s.heart.Idle? && s.requests.Keys == {0} && 2 in s.mapping && s.curve == c
            && Live(s.kps.keys, s.kps.clock, 2) && Live(s.wsd.keys, s.wsd.clock, s.mapping[2])
            && s.kps.keys[2].meta.spec == KemWithBindingPub(SUITE, PublicKey(Drawn(2)), PublicKey(Drawn(1)))
  {
    var d, d' := Draw(1, Drawn(1), true), Draw(2, Drawn(2), true);
    events := [GenBind(0, 1, d)] + [GenKem(0, true, d')] + [GenMap(0)];
    GenerateSucceeds(Init(c), 0, 1, d, d');
    DrawnIsHidden(hidden, 1);
    DrawnIsHidden(hidden, 2);
  }

  ghost predicate DeliversHidden(c: Curve, events: seq<Event>, hidden: set<nat>, r: nat, client: Key32) {
    && CanRun(Init(c), events) && AllHonest(hidden, events) && HiddenKey(hidden, client)
    && var s := Run(Init(c), events);
    r in s.requests && s.requests[r].DecDone? && s.requests[r].enc == PublicKey(client)
  }

  /** There is an honest run in which a hidden client's secret is delivered: the results above are not
      about nothing. */
  lemma HonestRunDelivers(c: Curve)
    ensures exists events, hidden, r, client :: DeliversHidden(c, events, hidden, r, client)
  {
    var hidden, client := {1, 2, 3, 4}, Drawn(4);
    var made := HonestKey(c, hidden);
    DrawnIsHidden(hidden, 3);
    DrawnIsHidden(hidden, 4);
    var events := DeliversFrom(c, made, hidden, 1, 2, client, Drawn(3));
  }

  lemma DeliversFrom(c: Curve, made: seq<Event>, hidden: set<nat>, r: nat, h: Uuid, client: Key32, ephemeral: Key32)
    returns (events: seq<Event>)
    requires CanRun(Init(c), made) && AllHonest(hidden, made)
    requires HiddenKey(hidden, client) && HiddenKey(hidden, ephemeral)
    requires var s := Run(Init(c), made);
             && MuFree(s) && r !in s.requests && h in s.mapping
             && Live(s.kps.keys, s.kps.clock, h) && Live(s.wsd.keys, s.wsd.clock, s.mapping[h])
    ensures DeliversHidden(c, events, hidden, r, client)
  {
    var s := Reached(c, made);
    var asked := HonestDecaps(s, r, h, client, ephemeral, hidden);
    RunConcat(Init(c), made, asked);
    HonestConcat(hidden, made, asked);
    events := made + asked;
  }

  lemma HonestDecaps(s: State, r: nat, h: Uuid, client: Key32, ephemeral: Key32, hidden: set<nat>)
    returns (events: seq<Event>)
    requires Inv(s) && MuFree(s) && r !in s.requests && h in s.mapping && HiddenKey(hidden, ephemeral)
    requires Live(s.kps.keys, s.kps.clock, h) && Live(s.wsd.keys, s.wsd.clock, s.mapping[h])
    ensures CanRun(s, events) && AllHonest(hidden, events)
    ensures var s' := Run(s, events);
            r in s'.requests && s'.requests[r].DecDone? && s'.requests[r].enc == PublicKey(client)
  {
    DecapsSucceeds(s, r, h, client, ephemeral);
    var pk := s.kps.keys[h].meta.spec.kemPublicKey;
    var enc := Encap(s.curve, pk, Some(client), client).value.1;
    ClientEnc(s.curve, pk, client);
    events := [DecLook(r, h, 1, enc)] + [DecSeal(r, true, ephemeral)] + [DecOpen(r)];
    DecapsIsHonest(hidden, r, h, client, ephemeral);
  }

  lemma ClientEnc(c: Curve, pk: Key32, client: Key32)
    requires Encap(c, pk, Some(client), client).Ok?
    ensures Encap(c, pk, Some(client), client).value.1 == PublicKey(client)
  {
  }

  lemma DecapsIsHonest(hidden: set<nat>, r: nat, h: Uuid, client: Key32, ephemeral: Key32)
    requires HiddenKey(hidden, ephemeral)
    ensures AllHonest(hidden, [DecLook(r, h, 1, PublicKey(client))] + [DecSeal(r, true, ephemeral)] + [DecOpen(r)])
  {
    PublicIsSafe(hidden, client);
  }

  lemma HonestConcat(hidden: set<nat>, a: seq<Event>, b: seq<Event>)
    requires AllHonest(hidden, a) && AllHonest(hidden, b)
    ensures AllHonest(hidden, a + b)
  {
  }

  // ---------- the observer is not toothless ----------

  const SUITE_BYTES: seq<byte> := ['K' as int, 'E' as int, 'M' as int, 0, 0x20]

  /** How to derive the secret from the client's ephemeral secret and the KEM public key. */
  function ExtractRecipe(ephemeral: Recipe, kemPub: Recipe): Recipe {
    HkdfExtract(Known([]),
                Concat(Known(Ascii("HPKE-v1") + SUITE_BYTES + Ascii("eae_prk")), Exchange(ephemeral, kemPub)))
  }

  function ContextRecipe(ephemeral: Recipe, kemPub: Recipe): Recipe {
    Concat(Known([0, 32] + Ascii("HPKE-v1") + SUITE_BYTES + Ascii("shared_secret")),
           Concat(PublicOf(ephemeral), kemPub))
  }

  function Derivation(ephemeral: Recipe, kemPub: Recipe): Recipe {
    HkdfExpand(ExtractRecipe(ephemeral, kemPub), ContextRecipe(ephemeral, kemPub), 32)
  }

  lemma LiteralConcat(a: seq<byte>, b: seq<byte>)
    ensures Literal(a + b) == Literal(a) + Literal(b)
  {
  }

  lemma LabelLiterals()
    ensures Literal([]) == []
    ensures Literal(Ascii("HPKE-v1") + SUITE_BYTES + Ascii("eae_prk")) == HPKE_V1 + SUITE_ID + EAE_PRK
    ensures Literal([0, 32] + Ascii("HPKE-v1") + SUITE_BYTES + Ascii("shared_secret")) ==
            BigEndian16(32) + HPKE_V1 + SUITE_ID + SHARED_SECRET
  {
    LiteralConcat(Ascii("HPKE-v1"), SUITE_BYTES);
    LiteralConcat(Ascii("HPKE-v1") + SUITE_BYTES, Ascii("eae_prk"));
    LiteralConcat([0, 32], Ascii("HPKE-v1"));
    LiteralConcat([0, 32] + Ascii("HPKE-v1"), SUITE_BYTES);
    LiteralConcat([0, 32] + Ascii("HPKE-v1") + SUITE_BYTES, Ascii("shared_secret"));
  }

  lemma ExtractRecipeWorks(c: Curve, hidden: set<nat>, seen: seq<Bytes>, ephemeral: Recipe, i: nat, skE: Bytes)
    requires i < |seen| && |seen[i]| == KEY_LEN && c.SharedKey(skE, seen[i]).Some?
    requires Compute(c, hidden, seen, ephemeral) == Some(skE)
    ensures Compute(c, hidden, seen, ExtractRecipe(ephemeral, Seen(i))) ==
            Some(LabeledExtract([], EAE_PRK, c.SharedKey(skE, seen[i]).value, SUITE_ID))
  {
    LabelLiterals();
    var exchange := Exchange(ephemeral, Seen(i));
    var start := Ascii("HPKE-v1") + SUITE_BYTES + Ascii("eae_prk");
    assert Compute(c, hidden, seen, exchange) == c.SharedKey(skE, seen[i]);
    assert Compute(c, hidden, seen, Concat(Known(start), exchange)) ==
           Some(HPKE_V1 + SUITE_ID + EAE_PRK + c.SharedKey(skE, seen[i]).value);
  }

  lemma ContextRecipeWorks(c: Curve, hidden: set<nat>, seen: seq<Bytes>, ephemeral: Recipe, i: nat, skE: Bytes)
    requires i < |seen| && Compute(c, hidden, seen, ephemeral) == Some(skE)
    ensures Compute(c, hidden, seen, ContextRecipe(ephemeral, Seen(i))) ==
            Some(BigEndian16(32) + HPKE_V1 + SUITE_ID + SHARED_SECRET + (PublicKey(skE) + seen[i]))
  {
    LabelLiterals();
    assert Compute(c, hidden, seen, Concat(PublicOf(ephemeral), Seen(i))) == Some(PublicKey(skE) + seen[i]);
  }

  /** An observer who has the client's ephemeral secret and has seen the KEM public key does compute the
      decapsulated secret: the exposure that ObserverLearnsNoSecret excludes is a real one. */
  lemma ExposureReveals(c: Curve, hidden: set<nat>, seen: seq<Bytes>, ephemeral: Recipe, i: nat, skE: Bytes, skR: Bytes)
    requires |skE| == |skR| == KEY_LEN && i < |seen| && seen[i] == PublicKey(skR)
    requires Compute(c, hidden, seen, ephemeral) == Some(skE)
    ensures Decaps(c, skR, PublicKey(skE)).Ok?
    ensures Compute(c, hidden, seen, Derivation(ephemeral, Seen(i))) == Some(Decaps(c, skR, PublicKey(skE)).value)
  {
    Agreement(c, skR, Some(skE), skE);
    PublicKeyIsPublicKey(skR);
    ExtractRecipeWorks(c, hidden, seen, ephemeral, i, skE);
    ContextRecipeWorks(c, hidden, seen, ephemeral, i, skE);
  }
}
