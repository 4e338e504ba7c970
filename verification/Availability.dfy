/**
  Keys serve until something ends them, and only the things that should do. A live key
  stays live, with its record, through every step but its own destruction, its expiry, a
  reboot or a cleanup; as long as it does, a decaps begun at any moment answers 200.
  */
module Availability {
  import opened Statuses
  import opened SymbolicBytes
  import opened Handles
  import opened X25519
  import opened DecapsContext
  import opened KeyTypes
  import opened Custody
  import opened RemoteKps
  import opened Protocol
  import opened Invariant
  import opened Guarantees
  import opened Effects

  // ---------- KEM keys ----------

  predicate KemDies(s: State, e: Event, h: Uuid)
    requires Enabled(s, e)
  {
    || DropsKem(s, e, h)
    || (e.KpsTick? && h in s.kps.keys && s.kps.keys[h].meta.deleteAfter <= s.kps.clock + e.ns)
  }

  /** A live KEM key is live after a step exactly when the step does not end it, and is then unchanged. */
  lemma KemStaysLiveIff(s: State, e: Event, h: Uuid)
    requires RegistriesOk(s) && Enabled(s, e) && Live(s.kps.keys, s.kps.clock, h)
    ensures var kps := Apply(s, e).kps;
            && (Live(kps.keys, kps.clock, h) <==> !KemDies(s, e, h))
            && (Live(kps.keys, kps.clock, h) ==> kps.keys[h] == s.kps.keys[h])
  {
    KpsEffect(s, e, h);
    assert h in s.past.kems && !Unused(s, h);
  }

  /** No step of the run ends h. */
  predicate KemSpared(s: State, events: seq<Event>, h: Uuid)
    requires CanRun(s, events)
    decreases |events|
  {
    |events| == 0 || (!KemDies(s, events[0], h) && KemSpared(Apply(s, events[0]), events[1..], h))
  }

  lemma {:induction false} KemLivesIff(s: State, events: seq<Event>, h: Uuid)
    requires Inv(s) && CanRun(s, events) && Live(s.kps.keys, s.kps.clock, h)
    ensures var kps := Run(s, events).kps;
            && (Live(kps.keys, kps.clock, h) <==> KemSpared(s, events, h))
            && (Live(kps.keys, kps.clock, h) ==> kps.keys[h] == s.kps.keys[h])
    decreases |events|
  {
    if |events| > 0 {
      var s' := Apply(s, events[0]);
      KemStaysLiveIff(s, events[0], h);
      StepKeeps(s, events[0]);
      if KemDies(s, events[0], h) {
        KemDeadAfter(s, events[0], h);
        DeadForGood(s', events[1..]);
        assert KemDead(Run(s', events[1..]), h);
      } else {
        KemLivesIff(s', events[1..], h);
      }
    }
  }

  lemma KemDeadAfter(s: State, e: Event, h: Uuid)
    requires Inv(s) && Enabled(s, e) && Live(s.kps.keys, s.kps.clock, h) && KemDies(s, e, h)
    ensures KemDead(Apply(s, e), h)
  {
    KemStaysLiveIff(s, e, h);
    var moved := StepProgress(s, e);
    assert h in s.past.kems;
  }

  // ---------- binding keys ----------

  predicate BindingDies(s: State, e: Event, b: Uuid)
    requires Enabled(s, e)
  {
    || DropsBinding(s, e, b)
    || (e.WsdTick? && b in s.wsd.keys && s.wsd.keys[b].meta.deleteAfter <= s.wsd.clock + e.ns)
  }

  lemma BindingStaysLiveIff(s: State, e: Event, b: Uuid)
    requires RegistriesOk(s) && Enabled(s, e) && Live(s.wsd.keys, s.wsd.clock, b)
    ensures var wsd := Apply(s, e).wsd;
            && (Live(wsd.keys, wsd.clock, b) <==> !BindingDies(s, e, b))
            && (Live(wsd.keys, wsd.clock, b) ==> wsd.keys[b] == s.wsd.keys[b])
  {
    WsdEffect(s, e, b);
    assert b in s.past.bindings && !Unused(s, b);
  }

  predicate BindingSpared(s: State, events: seq<Event>, b: Uuid)
    requires CanRun(s, events)
    decreases |events|
  {
    |events| == 0 || (!BindingDies(s, events[0], b) && BindingSpared(Apply(s, events[0]), events[1..], b))
  }

  lemma {:induction false} BindingLivesIff(s: State, events: seq<Event>, b: Uuid)
    requires Inv(s) && CanRun(s, events) && Live(s.wsd.keys, s.wsd.clock, b)
    ensures var wsd := Run(s, events).wsd;
            && (Live(wsd.keys, wsd.clock, b) <==> BindingSpared(s, events, b))
            && (Live(wsd.keys, wsd.clock, b) ==> wsd.keys[b] == s.wsd.keys[b])
    decreases |events|
  {
    if |events| > 0 {
      var s' := Apply(s, events[0]);
      BindingStaysLiveIff(s, events[0], b);
      StepKeeps(s, events[0]);
      if BindingDies(s, events[0], b) {
        BindingDeadAfter(s, events[0], b);
        DeadForGood(s', events[1..]);
        assert BindingDead(Run(s', events[1..]), b);
      } else {
        BindingLivesIff(s', events[1..], b);
      }
    }
  }

  lemma BindingDeadAfter(s: State, e: Event, b: Uuid)
    requires Inv(s) && Enabled(s, e) && Live(s.wsd.keys, s.wsd.clock, b) && BindingDies(s, e, b)
    ensures BindingDead(Apply(s, e), b)
  {
    BindingStaysLiveIff(s, e, b);
    var moved := StepProgress(s, e);
    assert b in s.past.bindings;
  }

  // ---------- mappings ----------

  predicate MappingSpared(s: State, events: seq<Event>, h: Uuid)
    requires CanRun(s, events)
    decreases |events|
  {
    |events| == 0 || (!DropsMapping(s, events[0], h) && MappingSpared(Apply(s, events[0]), events[1..], h))
  }

  /** A mapping lasts exactly until a cleanup resets the map or a destroy of its handle removes it. */
  lemma {:induction false} MappingLastsIff(s: State, events: seq<Event>, h: Uuid)
    requires Inv(s) && CanRun(s, events) && h in s.mapping
    ensures h in Run(s, events).mapping <==> MappingSpared(s, events, h)
    ensures h in Run(s, events).mapping ==> Run(s, events).mapping[h] == s.mapping[h]
    decreases |events|
  {
    if |events| > 0 {
      var s' := Apply(s, events[0]);
      MapEffect(s, events[0], h);
      NotMadeTwice(s, events[0], h);
      StepKeeps(s, events[0]);
      if DropsMapping(s, events[0], h) {
        RetiredByDrop(s, events[0], h);
        RetiredForGood(s', events[1..], h);
      } else {
        MappingLastsIff(s', events[1..], h);
      }
    }
  }

  lemma NotMadeTwice(s: State, e: Event, h: Uuid)
    requires Inv(s) && Enabled(s, e) && h in s.mapping
    ensures !MakesMapping(s, e, h)
  {
    if e.GenMap? {
      assert RequestOk(s, e.r);
    }
  }

  lemma RetiredByDrop(s: State, e: Event, h: Uuid)
    requires Inv(s) && Enabled(s, e) && h in s.mapping && DropsMapping(s, e, h)
    ensures Retired(Apply(s, e), h)
  {
    MapEffect(s, e, h);
    NotMadeTwice(s, e, h);
    var moved := StepProgress(s, e);
    PublishedStays(s, Apply(s, e), moved, h, s.mapping[h]);
  }

  // ---------- what is gone stays gone ----------

  /** A key that a sweep, a destroy, a reboot or a cleanup took out of its registry is never in it again. */
  lemma {:induction false} GoneForGood(s: State, events: seq<Event>)
    requires Inv(s) && CanRun(s, events)
    ensures forall h :: h in s.past.kems && h !in s.kps.keys ==> h !in Run(s, events).kps.keys
    ensures forall b :: b in s.past.bindings && b !in s.wsd.keys ==> b !in Run(s, events).wsd.keys
    decreases |events|
  {
    if |events| > 0 {
      var moved := StepProgress(s, events[0]);
      StepKeeps(s, events[0]);
      GoneForGood(Apply(s, events[0]), events[1..]);
    }
  }

  /** After a sweep at or past its deadline, a KEM key is in no later KPS: a destroy no longer finds it. */
  lemma SweptKemIsGone(s: State, sample: nat, events: seq<Event>, h: Uuid)
    requires Inv(s) && h in s.kps.keys && s.kps.keys[h].meta.deleteAfter <= sample <= s.kps.clock
    requires CanRun(Apply(s, KpsSweep(sample)), events)
    ensures h !in Run(Apply(s, KpsSweep(sample)), events).kps.keys
  {
    KpsEffect(s, KpsSweep(sample), h);
    StepKeeps(s, KpsSweep(sample));
    GoneForGood(Apply(s, KpsSweep(sample)), events);
  }

  lemma SweptBindingIsGone(s: State, sample: nat, events: seq<Event>, b: Uuid)
    requires Inv(s) && b in s.wsd.keys && s.wsd.keys[b].meta.deleteAfter <= sample <= s.wsd.clock
    requires CanRun(Apply(s, WsdSweep(sample)), events)
    ensures b !in Run(Apply(s, WsdSweep(sample)), events).wsd.keys
  {
    WsdEffect(s, WsdSweep(sample), b);
    StepKeeps(s, WsdSweep(sample));
    GoneForGood(Apply(s, WsdSweep(sample)), events);
  }

  // ---------- generate succeeds ----------

  /** An uninterrupted generate for which memory and clocks suffice ends with both keys made, each to live
      as long as asked on its own side's clock, and mapped. */
  lemma GenerateSucceeds(s: State, r: nat, secs: nat, d: Draw, d': Draw)
    requires r !in s.requests && MuFree(s) && Unused(s, d.id) && Unused(s, d'.id) && d.id != d'.id
    requires d.vaultOk && s.wsd.clock + secs * SECOND <= MAX_INSTANT
    requires d'.vaultOk && s.kps.clock + secs * SECOND <= MAX_INSTANT
    ensures var events := [GenBind(r, secs, d)] + [GenKem(r, true, d')] + [GenMap(r)];
            && CanRun(s, events)
            && var s' := Run(s, events);
            && s'.requests == s.requests[r := GenDone(d.id, d'.id, PublicKey(d'.secret))]
            && s'.mapping == s.mapping[d'.id := d.id]
            && s'.wsd == Host(s.wsd.keys[d.id := BindingFor(s, secs, d)], s.wsd.clock)
            && s'.kps == Host(s.kps.keys[d'.id := KemFor(s, secs, d, d')], s.kps.clock)
            && s'.heart == s.heart && s'.curve == s.curve
  {
    var s1 := Apply(s, GenBind(r, secs, d));
    BindStep(s, r, secs, d);
    var s2 := Apply(s1, GenKem(r, true, d'));
    KemStep(s1, r, secs, d.id, PublicKey(d.secret), d');
    var s3 := Apply(s2, GenMap(r));
    UpdatesCollapse(s.requests, r, s1.requests[r], s2.requests[r], s3.requests[r]);
    RunThree(s, GenBind(r, secs, d), GenKem(r, true, d'), GenMap(r), s1, s2, s3);
  }

  lemma UpdatesCollapse(m: map<nat, Request>, r: nat, a: Request, b: Request, c: Request)
    ensures m[r := a][r := b][r := c] == m[r := c]
  {
  }

  function BindingFor(s: State, secs: nat, d: Draw): KeyRecord {
    NewRecord(d, s.wsd.clock, secs, Binding(SUITE, PublicKey(d.secret)))
  }

  function KemFor(s: State, secs: nat, d: Draw, d': Draw): KeyRecord {
    NewRecord(d', s.kps.clock, secs, KemWithBindingPub(SUITE, PublicKey(d'.secret), PublicKey(d.secret)))
  }

  lemma BindStep(s: State, r: nat, secs: nat, d: Draw)
    requires Enabled(s, GenBind(r, secs, d)) && d.vaultOk && s.wsd.clock + secs * SECOND <= MAX_INSTANT
    ensures var s' := Apply(s, GenBind(r, secs, d));
            && s'.requests == s.requests[r := GenBound(secs, d.id, PublicKey(d.secret))]
            && s'.wsd == Host(s.wsd.keys[d.id := BindingFor(s, secs, d)], s.wsd.clock)
            && s'.kps == s.kps && s'.mapping == s.mapping && s'.heart == s.heart && s'.curve == s.curve
            && s'.past.kems == s.past.kems && s'.past.bindings.Keys == s.past.bindings.Keys + {d.id}
  {
  }

  lemma KemStep(s: State, r: nat, secs: nat, b: Uuid, bindingPub: Key32, d: Draw)
    requires r in s.requests && s.requests[r] == GenBound(secs, b, bindingPub) && Unused(s, d.id)
    requires d.vaultOk && s.kps.clock + secs * SECOND <= MAX_INSTANT
    ensures var s' := Apply(s, GenKem(r, true, d));
            var record := NewRecord(d, s.kps.clock, secs, KemWithBindingPub(SUITE, PublicKey(d.secret), bindingPub));
            && s'.requests == s.requests[r := GenKeyed(b, d.id, PublicKey(d.secret))]
            && s'.kps == Host(s.kps.keys[d.id := record], s.kps.clock)
            && s'.wsd == s.wsd && s'.mapping == s.mapping && s'.heart == s.heart && s'.curve == s.curve
  {
  }

  // ---------- decaps succeeds ----------

  /** From any state in order: a client's encapsulation to a mapped KEM key, with both keys live, is
      answered with the client's secret. */
  lemma DecapsSucceeds(s: State, r: nat, h: Uuid, client: Key32, ephemeral: Key32)
    requires Inv(s) && MuFree(s) && r !in s.requests && h in s.mapping
    requires Live(s.kps.keys, s.kps.clock, h) && Live(s.wsd.keys, s.wsd.clock, s.mapping[h])
    ensures s.kps.keys[h].meta.spec.KemWithBindingPub?
    ensures var sent := Encap(s.curve, s.kps.keys[h].meta.spec.kemPublicKey, Some(client), client);
            && sent.Ok?
            && var events := [DecLook(r, h, 1, sent.value.1)] + [DecSeal(r, true, ephemeral)] + [DecOpen(r)];
            && CanRun(s, events)
            && Run(s, events) == Note(s, r, DecDone(h, 1, sent.value.1, sent.value.0))
  {
    var record := s.kps.keys[h];
    Agreement(s.curve, record.privateKey, Some(client), client);
    var (secret, enc) := Encap(s.curve, record.meta.spec.kemPublicKey, Some(client), client).value;
    DecapsDelivers(s, r, h, enc, secret, ephemeral);
  }

  lemma DecapsDelivers(s: State, r: nat, h: Uuid, enc: Bytes, secret: Bytes, ephemeral: Key32)
    requires Inv(s) && MuFree(s) && r !in s.requests && h in s.mapping && |enc| == KEY_LEN
    requires Live(s.kps.keys, s.kps.clock, h) && Live(s.wsd.keys, s.wsd.clock, s.mapping[h])
    requires Decaps(s.curve, s.kps.keys[h].privateKey, enc) == Ok(secret)
    ensures var events := [DecLook(r, h, 1, enc)] + [DecSeal(r, true, ephemeral)] + [DecOpen(r)];
            CanRun(s, events) && Run(s, events) == Note(s, r, DecDone(h, 1, enc, secret))
  {
    var s1 := LookDelivers(s, r, h, enc);
    var s2 := SealDelivers(s1, r, h, enc, s.mapping[h], ephemeral);
    var s3 := OpenDelivers(s2, r, h, enc, s.mapping[h], secret);
    NotesCollapse(s, s1, s2, s3, r);
    RunThree(s, DecLook(r, h, 1, enc), DecSeal(r, true, ephemeral), DecOpen(r), s1, s2, s3);
  }

  lemma NotesCollapse(s: State, s1: State, s2: State, s3: State, r: nat)
    requires r in s1.requests && r in s2.requests && r in s3.requests
    requires s1 == Note(s, r, s1.requests[r]) && s2 == Note(s1, r, s2.requests[r]) && s3 == Note(s2, r, s3.requests[r])
    ensures s3 == Note(s, r, s3.requests[r])
  {
  }

  lemma LookDelivers(s: State, r: nat, h: Uuid, enc: Bytes) returns (s': State)
    requires Inv(s) && MuFree(s) && r !in s.requests && h in s.mapping && |enc| > 0
    ensures Enabled(s, DecLook(r, h, 1, enc)) && s' == Apply(s, DecLook(r, h, 1, enc)) && Inv(s')
    ensures s' == Note(s, r, DecLooked(h, 1, enc, s.mapping[h]))
  {
    s' := Apply(s, DecLook(r, h, 1, enc));
    StepKeeps(s, DecLook(r, h, 1, enc));
  }

  lemma SealDelivers(s: State, r: nat, h: Uuid, enc: Bytes, b: Uuid, ephemeral: Key32) returns (s': State)
    requires Inv(s) && r in s.requests && s.requests[r] == DecLooked(h, 1, enc, b)
    requires Live(s.kps.keys, s.kps.clock, h) && Decaps(s.curve, s.kps.keys[h].privateKey, enc).Ok?
    ensures Enabled(s, DecSeal(r, true, ephemeral)) && s' == Apply(s, DecSeal(r, true, ephemeral)) && Inv(s')
    ensures Boxed(s', r, h) && s'.requests[r].enc == enc && s'.requests[r].b == b && s'.requests[r].algorithm == 1
    ensures s' == Note(s, r, s'.requests[r])
  {
    s' := Apply(s, DecSeal(r, true, ephemeral));
    assert RequestOk(s, r);
    SealSucceedsIff(s, r, ephemeral);
    SealKeepsRequest(s, r, ephemeral, h);
    DecSealNoted(s, r, true, ephemeral);
    StepKeeps(s, DecSeal(r, true, ephemeral));
  }

  lemma OpenDelivers(s: State, r: nat, h: Uuid, enc: Bytes, b: Uuid, secret: Bytes) returns (s': State)
    requires Inv(s) && Boxed(s, r, h)
    requires s.requests[r].enc == enc && s.requests[r].b == b && s.requests[r].algorithm == 1
    requires Live(s.wsd.keys, s.wsd.clock, b) && Live(s.kps.keys, s.kps.clock, h)
    requires Decaps(s.curve, s.kps.keys[h].privateKey, enc) == Ok(secret)
    ensures Enabled(s, DecOpen(r)) && s' == Apply(s, DecOpen(r)) && s' == Note(s, r, DecDone(h, 1, enc, secret))
  {
    s' := Apply(s, DecOpen(r));
    assert RequestOk(s, r);
    OpenSucceedsIff(s, r);
  }

  // ---------- the answer to every decaps ----------

  /** What a decaps that nothing interrupts comes to, from a state in order. */
  function Verdict(s: State, h: Uuid, algorithm: int, enc: Bytes, reachable: bool): Request {
    if algorithm != 1 || |enc| == 0 then DecFailed(400)
    else if h !in s.mapping then DecFailed(404)
    else if !reachable then DecFailed(500)
    else if !Live(s.kps.keys, s.kps.clock, h) then DecFailed(404)
    else
      match Decaps(s.curve, s.kps.keys[h].privateKey, enc)
      case Err(_) => DecFailed(500)
      case Ok(secret) =>
        if Live(s.wsd.keys, s.wsd.clock, s.mapping[h]) then DecDone(h, algorithm, enc, secret) else DecFailed(404)
  }

  lemma LookVerdict(s: State, r: nat, h: Uuid, algorithm: int, enc: Bytes, reachable: bool)
    requires Enabled(s, DecLook(r, h, algorithm, enc))
    ensures var q := Apply(s, DecLook(r, h, algorithm, enc)).requests[r];
            if q.DecFailed? then q == Verdict(s, h, algorithm, enc, reachable)
            else algorithm == 1 && |enc| > 0 && h in s.mapping && q == DecLooked(h, algorithm, enc, s.mapping[h])
    ensures var s' := Apply(s, DecLook(r, h, algorithm, enc)); s' == Note(s, r, s'.requests[r])
  {
  }

  /** The KPS's part of the verdict. */
  lemma SealEnds(s: State, r: nat, reachable: bool, ephemeral: Key32)
    requires Inv(s) && Enabled(s, DecSeal(r, reachable, ephemeral))
    ensures var q, s' := s.requests[r], Apply(s, DecSeal(r, reachable, ephemeral));
            var live := Live(s.kps.keys, s.kps.clock, q.h);
            && s' == Note(s, r, s'.requests[r])
            && if !reachable then s'.requests[r] == DecFailed(500)
               else if !live then s'.requests[r] == DecFailed(404)
               else if Decaps(s.curve, s.kps.keys[q.h].privateKey, q.enc).Err? then s'.requests[r] == DecFailed(500)
               else Boxed(s', r, q.h) && s'.requests[r].enc == q.enc && s'.requests[r].b == q.b
                    && s'.requests[r].algorithm == q.algorithm
  {
    assert RequestOk(s, r);
    SealStatus(s, s.requests[r], ephemeral);
    SealNotes(s, r, reachable, ephemeral);
  }

  /** What the KPS returns to a decaps in flight, by name. */
  function Sealed(s: State, q: Request, ephemeral: Key32): Result<(Bytes, Bytes)>
    requires q.DecLooked?
  {
    DecapAndSeal(s.curve, s.kps.keys, s.kps.clock, q.h, q.enc, Aad(q.h, q.algorithm), ephemeral, ENC_BUF, SEALED_BUF)
  }

  lemma SealStatus(s: State, q: Request, ephemeral: Key32)
    requires RegistriesOk(s) && PairsOk(s) && q.DecLooked? && Published(s, q.h, q.b)
    ensures var live := Live(s.kps.keys, s.kps.clock, q.h);
            && (Sealed(s, q, ephemeral).Ok? <==> live && Decaps(s.curve, s.kps.keys[q.h].privateKey, q.enc).Ok?)
            && (Sealed(s, q, ephemeral).Err? ==>
                  HttpNumber(Sealed(s, q, ephemeral).status) == if live then 500 else 404)
  {
    assert Tied(s.past.kems[q.h].record, s.past.bindings[q.b].record);
    TiedKeySealsIff(s, q.h, q.b, q.enc, Aad(q.h, q.algorithm), ephemeral);
  }

  /** What the handler makes of it. */
  lemma SealNotes(s: State, r: nat, reachable: bool, ephemeral: Key32)
    requires Enabled(s, DecSeal(r, reachable, ephemeral))
    ensures var q, s' := s.requests[r], Apply(s, DecSeal(r, reachable, ephemeral));
            && s' == Note(s, r, s'.requests[r])
            && s'.requests[r] ==
               if !reachable then DecFailed(500)
               else match Sealed(s, q, ephemeral)
                    case Err(e) => DecFailed(HttpNumber(e))
                    case Ok((sealEnc, sealedCt)) => DecSealed(q.h, q.algorithm, q.enc, q.b, sealEnc, sealedCt)
  {
    HttpStatusOfChain(UNREACHABLE);
    var sealed := Sealed(s, s.requests[r], ephemeral);
    if sealed.Err? {
      HttpStatusOfChain(FfiStatus(sealed.status));
    }
  }

  lemma SealVerdict(s: State, s1: State, r: nat, h: Uuid, algorithm: int, enc: Bytes, reachable: bool, ephemeral: Key32)
    requires Enabled(s, DecLook(r, h, algorithm, enc)) && s1 == Apply(s, DecLook(r, h, algorithm, enc))
    requires Enabled(s1, DecSeal(r, reachable, ephemeral))
    ensures Inv(s) ==>
              var q := Apply(s1, DecSeal(r, reachable, ephemeral)).requests[r];
              q.DecFailed? ==> q == Verdict(s, h, algorithm, enc, reachable)
  {
    LookVerdict(s, r, h, algorithm, enc, reachable);
    if Inv(s) {
      StepKeeps(s, DecLook(r, h, algorithm, enc));
      SealEnds(s1, r, reachable, ephemeral);
    }
  }

  lemma OpenVerdict(s: State, s1: State, s2: State, r: nat, h: Uuid, algorithm: int, enc: Bytes, reachable: bool,
                    ephemeral: Key32)
    requires Enabled(s, DecLook(r, h, algorithm, enc)) && s1 == Apply(s, DecLook(r, h, algorithm, enc))
    requires Enabled(s1, DecSeal(r, reachable, ephemeral)) && s2 == Apply(s1, DecSeal(r, reachable, ephemeral))
    requires Enabled(s2, DecOpen(r))
    ensures Inv(s) ==> Apply(s2, DecOpen(r)).requests[r] == Verdict(s, h, algorithm, enc, reachable)
  {
    LookVerdict(s, r, h, algorithm, enc, reachable);
    if Inv(s) {
      StepKeeps(s, DecLook(r, h, algorithm, enc));
      SealEnds(s1, r, reachable, ephemeral);
      StepKeeps(s1, DecSeal(r, reachable, ephemeral));
      assert RequestOk(s2, r);
      OpenSucceedsIff(s2, r);
    }
  }

  // ---------- a generated key serves ----------

  /** A key that a generate returned serves: through any run that spares both keys and the mapping, a
      decaps begun afterwards answers 200 with the client's secret. */
  lemma KeyServesUntilEnded(c: Curve, before: seq<Event>, during: seq<Event>, g: nat, r: nat, client: Key32,
                            ephemeral: Key32)
    requires CanRun(Init(c), before) && CanRun(Run(Init(c), before), during)
    requires var s := Run(Init(c), before);
             && g in s.requests && s.requests[g].GenDone? && s.requests[g].h in s.mapping
             && var q := s.requests[g];
             && Live(s.kps.keys, s.kps.clock, q.h) && Live(s.wsd.keys, s.wsd.clock, q.b)
             && KemSpared(s, during, q.h) && BindingSpared(s, during, q.b) && MappingSpared(s, during, q.h)
    requires var s' := Run(Run(Init(c), before), during); MuFree(s') && r !in s'.requests
    ensures var q := Run(Init(c), before).requests[g];
            var s' := Run(Run(Init(c), before), during);
            var sent := Encap(c, q.kemPub, Some(client), client);
            && sent.Ok?
            && var events := [DecLook(r, q.h, 1, sent.value.1)] + [DecSeal(r, true, ephemeral)] + [DecOpen(r)];
            && CanRun(s', events)
            && Run(s', events) == Note(s', r, DecDone(q.h, 1, sent.value.1, sent.value.0))
  {
    var s := Reached(c, before);
    var q := s.requests[g];
    GeneratedPair(s, g);
    RunKeeps(s, during);
    var s' := Run(s, during);
    KemLivesIff(s, during, q.h);
    BindingLivesIff(s, during, q.b);
    MappingLastsIff(s, during, q.h);
    CurveIsFixed(Init(c), before);
    CurveIsFixed(s, during);
    DecapsSucceeds(s', r, q.h, client, ephemeral);
  }

  lemma GeneratedPair(s: State, g: nat)
    requires Inv(s) && g in s.requests && s.requests[g].GenDone?
    ensures var q := s.requests[g];
            && (q.h in s.mapping ==> s.mapping[q.h] == q.b)
            && (q.h in s.kps.keys ==>
                  var spec := s.kps.keys[q.h].meta.spec; spec.KemWithBindingPub? && spec.kemPublicKey == q.kemPub)
  {
    assert RequestOk(s, g);
  }
}
