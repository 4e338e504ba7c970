/** What holds over every interleaved run of generates, decaps, destroys, expiries, sweeps, reboots and cleanups. */
module Guarantees {
  import opened Statuses
  import opened SymbolicBytes
  import opened Handles
  import opened X25519
  import opened DecapsContext
  import opened KeyTypes
  import opened Custody
  import opened RemoteKps
  import opened Protocol
  import opened Invariant

  lemma Reached(c: Curve, events: seq<Event>) returns (s: State)
    requires CanRun(Init(c), events)
    ensures s == Run(Init(c), events) && Inv(s)
  {
    RunKeeps(Init(c), events);
    s := Run(Init(c), events);
  }

  // ---------- decapsulation ----------

  predicate Delivered(s: State, r: nat, h: Uuid) {
    r in s.requests && s.requests[r].DecDone? && s.requests[r].h == h
  }

  predicate Boxed(s: State, r: nat, h: Uuid) {
    r in s.requests && s.requests[r].DecSealed? && s.requests[r].h == h
  }

  /** A decaps that answers 200 for an encapsulation to the returned public key returns the client's secret. */
  lemma DecapsReturnsClientSecret(c: Curve, events: seq<Event>, g: nat, r: nat, client: Key32)
    requires CanRun(Init(c), events)
    requires var s := Run(Init(c), events);
             && g in s.requests && s.requests[g].GenDone?
             && r in s.requests && s.requests[r].DecDone? && s.requests[r].h == s.requests[g].h
             && var sent := Encap(s.curve, s.requests[g].kemPub, Some(client), client);
             sent.Ok? && sent.value.1 == s.requests[r].enc
    ensures var s := Run(Init(c), events);
            s.requests[r].secret == Encap(s.curve, s.requests[g].kemPub, Some(client), client).value.0
  {
    var s := Reached(c, events);
    assert RequestOk(s, r);
    ClientDecapsulates(s, g, client);
  }

  /** The KPS step of a decaps succeeds exactly when the KEM key is live there and the encapsulation decapsulates. */
  lemma SealSucceedsIff(s: State, r: nat, ephemeral: Key32)
    requires RegistriesOk(s) && PairsOk(s) && Enabled(s, DecSeal(r, true, ephemeral)) && RequestOk(s, r)
    ensures var q := s.requests[r];
            && q.h in s.past.kems
            && (Boxed(Apply(s, DecSeal(r, true, ephemeral)), r, q.h) <==>
                Live(s.kps.keys, s.kps.clock, q.h) && SecretOf(s, q.h, q.enc).Ok?)
  {
    var q := s.requests[r];
    assert Tied(s.past.kems[q.h].record, s.past.bindings[q.b].record);
    TiedKeySealsIff(s, q.h, q.b, q.enc, Aad(q.h, q.algorithm), ephemeral);
  }

  lemma TiedKeySealsIff(s: State, h: Uuid, b: Uuid, enc: Bytes, aad: Bytes, ephemeral: Key32)
    requires RegistriesOk(s) && h in s.past.kems && b in s.past.bindings
    requires Tied(s.past.kems[h].record, s.past.bindings[b].record)
    ensures DecapAndSeal(s.curve, s.kps.keys, s.kps.clock, h, enc, aad, ephemeral, ENC_BUF, SEALED_BUF).Ok? <==>
            Live(s.kps.keys, s.kps.clock, h) && SecretOf(s, h, enc).Ok?
    ensures var sealed := DecapAndSeal(s.curve, s.kps.keys, s.kps.clock, h, enc, aad, ephemeral, ENC_BUF, SEALED_BUF);
            sealed.Err? ==>
              sealed.status == if Live(s.kps.keys, s.kps.clock, h) then DecapsulationFailure else NotFound
  {
    if Live(s.kps.keys, s.kps.clock, h) {
      PipelineDeliversSecret(s.curve, s.past.kems[h].record, s.past.bindings[b].record, enc, aad, aad, ephemeral);
    }
  }

  /** The last step succeeds exactly when the binding key is live, whatever happened in between, and
      then the answer is the KEM key's secret. */
  lemma OpenSucceedsIff(s: State, r: nat)
    requires RegistriesOk(s) && BirthsOk(s) && Enabled(s, DecOpen(r)) && RequestOk(s, r)
    ensures var q := s.requests[r];
            && q.h in s.past.kems && SecretOf(s, q.h, q.enc).Ok?
            && Apply(s, DecOpen(r)) ==
               Note(s, r, if Live(s.wsd.keys, s.wsd.clock, q.b)
                          then DecDone(q.h, q.algorithm, q.enc, SecretOf(s, q.h, q.enc).value)
                          else DecFailed(404))
  {
    var q := s.requests[r];
    HeldBoxOpens(s, q.h, q.algorithm, q.enc, q.b, q.sealEnc, q.sealedCt);
    if !Live(s.wsd.keys, s.wsd.clock, q.b) {
      assert HttpStatus(Some(FfiStatus(NotFound))) == 404;
    }
  }

  // ---------- the map ----------

  /** The map is injective, and a mapped KEM key still in the KPS carries its own binding key's public
      key, whether or not that binding key still exists. */
  lemma MapIsInjectiveAndTied(c: Curve, events: seq<Event>, h: Uuid, h': Uuid)
    requires CanRun(Init(c), events)
    requires var s := Run(Init(c), events); h in s.mapping && h' in s.mapping
    ensures var s := Run(Init(c), events);
            && (s.mapping[h] == s.mapping[h'] ==> h == h')
            && s.mapping[h] in s.past.bindings
            && (h in s.kps.keys ==> Tied(s.kps.keys[h], s.past.bindings[s.mapping[h]].record))
  {
    var s := Reached(c, events);
    assert Published(s, h, s.mapping[h]) && Published(s, h', s.mapping[h']);
  }

  /** Whatever has run, the KPS registry is one that enumeration writes out without failing. */
  lemma KpsIsEnumerable(c: Curve, events: seq<Event>)
    requires CanRun(Init(c), events)
    ensures Enumerate.KemRegistry(Run(Init(c), events).kps.keys)
  {
    var s := Reached(c, events);
    EnumerableWhenOk(s);
  }

  lemma EnumerableWhenOk(s: State)
    requires Inv(s)
    ensures Enumerate.KemRegistry(s.kps.keys)
  {
  }

  // ---------- one-way lives ----------

  /** The request an event moves, if any. */
  function Movers(e: Event): set<nat> {
    if Background(e) then {} else {e.r}
  }

  lemma StepProgress(s: State, e: Event) returns (moved: set<nat>)
    requires Inv(s) && Enabled(s, e)
    ensures Progress(s, Apply(s, e), moved) && moved == Movers(e)
  {
    moved := Movers(e);
    if Background(e) {
      BackgroundProgress(s, e);
    } else {
      HandlerProgress(s, e);
    }
  }

  lemma HandlerProgress(s: State, e: Event)
    requires BirthsOk(s) && PairsOk(s) && Enabled(s, e) && !Background(e) && (e.r in s.requests ==> RequestOk(s, e.r))
    ensures Progress(s, Apply(s, e), {e.r})
  {
    match e
    case GenBind(r, secs, draw) => GenBindProgress(s, r, secs, draw);
    case GenKem(r, reachable, draw) => GenKemProgress(s, r, reachable, draw);
    case GenMap(r) => GenMapProgress(s, r);
    case DecLook(r, h, algorithm, enc) => DecLookProgress(s, r, h, algorithm, enc);
    case DecSeal(r, reachable, ephemeral) => DecSealProgress(s, r, reachable, ephemeral);
    case DecOpen(r) => DecOpenProgress(s, r);
    case DesLook(r, h) => DesLookProgress(s, r, h);
    case DesAtKps(r, reachable) => DesAtKpsProgress(s, r, reachable);
    case DesAtWsd(r) => DesAtWsdProgress(s, r);
    case DesUnmap(r) => DesUnmapProgress(s, r);
  }

  lemma DecLookProgress(s: State, r: nat, h: Uuid, algorithm: int, enc: Bytes)
    requires BirthsOk(s) && r !in s.requests
    ensures Progress(s, DecLookStep(s, r, h, algorithm, enc), {r})
  {
    NoteProgress(s, DecLookStep(s, r, h, algorithm, enc), r);
  }

  lemma DecSealProgress(s: State, r: nat, reachable: bool, ephemeral: Key32)
    requires BirthsOk(s) && Enabled(s, DecSeal(r, reachable, ephemeral))
    ensures Progress(s, DecSealStep(s, r, reachable, ephemeral), {r})
  {
    DecSealNoted(s, r, reachable, ephemeral);
    NoteProgress(s, DecSealStep(s, r, reachable, ephemeral), r);
  }

  lemma DecOpenProgress(s: State, r: nat)
    requires BirthsOk(s) && Enabled(s, DecOpen(r))
    ensures Progress(s, DecOpenStep(s, r), {r})
  {
    DecOpenNoted(s, r);
    NoteProgress(s, DecOpenStep(s, r), r);
  }

  lemma DesLookProgress(s: State, r: nat, h: Uuid)
    requires BirthsOk(s) && r !in s.requests
    ensures Progress(s, DesLookStep(s, r, h), {r})
  {
    NoteProgress(s, DesLookStep(s, r, h), r);
  }

  /** h has been in the map and is no longer. */
  predicate Retired(s: State, h: Uuid) {
    h in s.past.bindingOf && Published(s, h, s.past.bindingOf[h]) && h !in s.mapping
  }

  lemma RetiredStays(s: State, s': State, moved: set<nat>, h: Uuid)
    requires Progress(s, s', moved) && Retired(s, h)
    ensures Retired(s', h)
  {
    PublishedStays(s, s', moved, h, s.past.bindingOf[h]);
  }

  lemma {:induction false} RetiredForGood(s: State, events: seq<Event>, h: Uuid)
    requires Inv(s) && CanRun(s, events) && Retired(s, h)
    ensures Retired(Run(s, events), h)
    decreases |events|
  {
    if |events| > 0 {
      var moved := StepProgress(s, events[0]);
      RetiredStays(s, Apply(s, events[0]), moved, h);
      StepKeeps(s, events[0]);
      RetiredForGood(Apply(s, events[0]), events[1..], h);
    }
  }

  lemma {:induction false} PublishedForGood(s: State, events: seq<Event>, h: Uuid, b: Uuid)
    requires Inv(s) && CanRun(s, events) && Published(s, h, b)
    ensures Published(Run(s, events), h, b)
    decreases |events|
  {
    if |events| > 0 {
      var moved := StepProgress(s, events[0]);
      PublishedStays(s, Apply(s, events[0]), moved, h, b);
      StepKeeps(s, events[0]);
      PublishedForGood(Apply(s, events[0]), events[1..], h, b);
    }
  }

  /** A handle that leaves the map never returns, and while it is in, it maps to one binding handle. */
  lemma MappingIsOneWay(c: Curve, before: seq<Event>, during: seq<Event>, after: seq<Event>, h: Uuid)
    requires CanRun(Init(c), before)
    requires CanRun(Run(Init(c), before), during)
    requires CanRun(Run(Run(Init(c), before), during), after)
    requires h in Run(Init(c), before).mapping
    ensures var s := Run(Init(c), before);
            var s' := Run(s, during);
            && (h in s'.mapping ==> s'.mapping[h] == s.mapping[h])
            && (h !in s'.mapping ==> h !in Run(s', after).mapping)
  {
    var s := Reached(c, before);
    RunKeeps(s, during);
    var s' := Run(s, during);
    PublishedForGood(s, during, h, s.mapping[h]);
    if h !in s'.mapping {
      RetiredForGood(s', after, h);
    }
  }

  predicate KemDead(s: State, h: Uuid) {
    h in s.past.kems && !Live(s.kps.keys, s.kps.clock, h)
  }

  predicate BindingDead(s: State, b: Uuid) {
    b in s.past.bindings && !Live(s.wsd.keys, s.wsd.clock, b)
  }

  lemma ClocksAdvance(s: State, e: Event)
    requires Enabled(s, e)
    ensures Apply(s, e).wsd.clock >= s.wsd.clock
    ensures Apply(s, e).kps.clock >= s.kps.clock || Apply(s, e).kps.keys == map[]
  {
  }

  lemma DeadStays(s: State, e: Event)
    requires Inv(s) && Enabled(s, e)
    ensures forall h :: KemDead(s, h) ==> KemDead(Apply(s, e), h)
    ensures forall b :: BindingDead(s, b) ==> BindingDead(Apply(s, e), b)
  {
    var moved := StepProgress(s, e);
    StepKeeps(s, e);
    ClocksAdvance(s, e);
  }

  /** A key once unreachable through a lookup, whether removed, expired or wiped, stays so. */
  lemma {:induction false} DeadForGood(s: State, events: seq<Event>)
    requires Inv(s) && CanRun(s, events)
    ensures forall h :: KemDead(s, h) ==> KemDead(Run(s, events), h)
    ensures forall b :: BindingDead(s, b) ==> BindingDead(Run(s, events), b)
    decreases |events|
  {
    if |events| > 0 {
      DeadStays(s, events[0]);
      StepKeeps(s, events[0]);
      DeadForGood(Apply(s, events[0]), events[1..]);
    }
  }

  // ---------- live keys answer ----------

  /** No event of the list is a step of request r. */
  predicate Untouched(events: seq<Event>, r: nat) {
    forall i :: 0 <= i < |events| ==> r !in Movers(events[i])
  }

  lemma {:induction false} UntouchedStays(s: State, events: seq<Event>, r: nat)
    requires Inv(s) && CanRun(s, events) && r in s.requests && (Untouched(events, r) || s.requests[r].GenDone?)
    ensures r in Run(s, events).requests && Run(s, events).requests[r] == s.requests[r]
    decreases |events|
  {
    if |events| > 0 {
      var moved := StepProgress(s, events[0]);
      StepKeeps(s, events[0]);
      UntouchedStays(Apply(s, events[0]), events[1..], r);
    }
  }

  lemma ClientDecapsulates(s: State, g: nat, client: Key32)
    requires Inv(s) && g in s.requests && s.requests[g].GenDone?
    ensures var q := s.requests[g];
            var sent := Encap(s.curve, q.kemPub, Some(client), client);
            q.h in s.past.kems && sent.Ok? && SecretOf(s, q.h, sent.value.1) == Ok(sent.value.0)
  {
    assert RequestOk(s, g);
    Agreement(s.curve, s.past.kems[s.requests[g].h].record.privateKey, Some(client), client);
  }

  /** A decaps of a client's encapsulation whose KEM key is live at the KPS step and whose binding key
      is live at the open step answers 200 with the client's secret, whatever runs in between. */
  lemma LiveKeysAnswer(c: Curve, before: seq<Event>, between: seq<Event>, g: nat, r: nat, client: Key32,
                       ephemeral: Key32)
    requires CanRun(Init(c), before)
    requires var s := Run(Init(c), before);
             && g in s.requests && s.requests[g].GenDone?
             && r in s.requests && s.requests[r].DecLooked? && s.requests[r].h == s.requests[g].h
             && var sent := Encap(s.curve, s.requests[g].kemPub, Some(client), client);
             && sent.Ok? && s.requests[r].enc == sent.value.1
             && Live(s.kps.keys, s.kps.clock, s.requests[r].h)
             && var s' := Apply(s, DecSeal(r, true, ephemeral));
             CanRun(s', between) && Untouched(between, r)
    requires var s := Run(Init(c), before);
             var s'' := Run(Apply(s, DecSeal(r, true, ephemeral)), between);
             Live(s''.wsd.keys, s''.wsd.clock, s.requests[r].b)
    ensures var s := Run(Init(c), before);
            var q := s.requests[r];
            var s'' := Run(Apply(s, DecSeal(r, true, ephemeral)), between);
            && Enabled(s'', DecOpen(r))
            && Apply(s'', DecOpen(r)) ==
               Note(s'', r, DecDone(q.h, q.algorithm, q.enc,
                                    Encap(s.curve, s.requests[g].kemPub, Some(client), client).value.0))
  {
    var s := Reached(c, before);
    var q := s.requests[r];
    assert RequestOk(s, r);
    ClientDecapsulates(s, g, client);
    SealSucceedsIff(s, r, ephemeral);
    AfterSeal(s, between, r, ephemeral, q.h);
    var s' := Apply(s, DecSeal(r, true, ephemeral));
    var s'' := Run(s', between);
    SealKeepsOthers(s, r, ephemeral, g);
    UntouchedStays(s', between, g);
    CurveIsFixed(s', between);
    ClientDecapsulates(s'', g, client);
    assert RequestOk(s'', r);
    OpenSucceedsIff(s'', r);
  }

  /** The seal step and what follows leave the boxed request as it was and everyone else's alone. */
  lemma AfterSeal(s: State, between: seq<Event>, r: nat, ephemeral: Key32, h: Uuid)
    requires Inv(s) && Enabled(s, DecSeal(r, true, ephemeral))
    requires var s' := Apply(s, DecSeal(r, true, ephemeral));
             Boxed(s', r, h) && CanRun(s', between) && Untouched(between, r)
    ensures var s' := Apply(s, DecSeal(r, true, ephemeral));
            var s'' := Run(s', between);
            && Inv(s') && Inv(s'') && r in s''.requests
            && s''.requests[r] == s'.requests[r]
            && s'.requests[r].DecSealed?
            && s'.requests[r].h == s.requests[r].h && s'.requests[r].b == s.requests[r].b
            && s'.requests[r].enc == s.requests[r].enc && s'.requests[r].algorithm == s.requests[r].algorithm
  {
    var s' := Apply(s, DecSeal(r, true, ephemeral));
    SealKeepsRequest(s, r, ephemeral, h);
    DecSealKeeps(s, r, true, ephemeral);
    RunKeeps(s', between);
    UntouchedStays(s', between, r);
  }

  lemma SealKeepsRequest(s: State, r: nat, ephemeral: Key32, h: Uuid)
    requires Enabled(s, DecSeal(r, true, ephemeral)) && Boxed(Apply(s, DecSeal(r, true, ephemeral)), r, h)
    ensures var q, q' := s.requests[r], Apply(s, DecSeal(r, true, ephemeral)).requests[r];
            q'.DecSealed? && q'.h == q.h && q'.b == q.b && q'.enc == q.enc && q'.algorithm == q.algorithm
  {
  }

  lemma SealKeepsOthers(s: State, r: nat, ephemeral: Key32, g: nat)
    requires Enabled(s, DecSeal(r, true, ephemeral)) && g in s.requests && g != r
    ensures var s' := Apply(s, DecSeal(r, true, ephemeral));
            g in s'.requests && s'.requests[g] == s.requests[g] && s'.curve == s.curve
  {
  }

  lemma {:induction false} CurveIsFixed(s: State, events: seq<Event>)
    requires CanRun(s, events)
    ensures Run(s, events).curve == s.curve
    decreases |events|
  {
    if |events| > 0 {
      CurveIsFixed(Apply(s, events[0]), events[1..]);
    }
  }

  // ---------- dead keys deliver nothing ----------

  /** Which events leave a request boxed or delivered. */
  lemma MoverKind(s: State, e: Event)
    requires Enabled(s, e) && !Background(e)
    ensures e.r in Apply(s, e).requests
    ensures var q := Apply(s, e).requests[e.r];
            && (q.DecDone? ==> e.DecOpen? && q.h == s.requests[e.r].h)
            && (q.DecSealed? ==> e.DecSeal? && q.h == s.requests[e.r].h)
  {
  }

  /** Only opening finishes a decaps, and only resealing boxes it. */
  lemma DeliveryStep(s: State, e: Event, r: nat, h: Uuid)
    requires Enabled(s, e) && Progress(s, Apply(s, e), Movers(e))
    ensures Delivered(Apply(s, e), r, h) && !Delivered(s, r, h) ==> e == DecOpen(r) && Boxed(s, r, h)
    ensures Boxed(Apply(s, e), r, h) && !Boxed(s, r, h) ==> e.DecSeal? && e.r == r && s.requests[r].h == h
  {
    if r in Movers(e) {
      MoverKind(s, e);
    } else {
      UnmovedStays(s, Apply(s, e), Movers(e), r, h);
    }
  }

  lemma UnmovedStays(s: State, s': State, moved: set<nat>, r: nat, h: Uuid)
    requires Progress(s, s', moved) && r !in moved
    ensures Delivered(s', r, h) ==> Delivered(s, r, h)
    ensures Boxed(s', r, h) ==> Boxed(s, r, h)
  {
  }

  /** One step does not deliver h while its binding key is dead. */
  lemma DeadBindingStep(s: State, e: Event, h: Uuid, b: Uuid, r: nat)
    requires Inv(s) && Enabled(s, e) && Published(s, h, b) && BindingDead(s, b) && !Delivered(s, r, h)
    ensures !Delivered(Apply(s, e), r, h)
  {
    var moved := StepProgress(s, e);
    DeliveryStep(s, e, r, h);
    if e == DecOpen(r) && Boxed(s, r, h) {
      assert RequestOk(s, r);
      DeadBindingOpensNothing(s, r, h, b);
    }
  }

  lemma DeadBindingOpensNothing(s: State, r: nat, h: Uuid, b: Uuid)
    requires RegistriesOk(s) && BirthsOk(s) && Boxed(s, r, h) && RequestOk(s, r)
    requires Published(s, h, b) && BindingDead(s, b)
    ensures !Delivered(Apply(s, DecOpen(r)), r, h)
  {
    OpenSucceedsIff(s, r);
  }

  /** Once its binding key is dead, no unfinished decaps of h ever answers 200, not even one whose
      secret has already been resealed. */
  lemma {:induction false} DeadBindingDeliversNothing(s: State, events: seq<Event>, h: Uuid, b: Uuid, r: nat)
    requires Inv(s) && CanRun(s, events) && Published(s, h, b) && BindingDead(s, b) && !Delivered(s, r, h)
    ensures !Delivered(Run(s, events), r, h)
    decreases |events|
  {
    if |events| > 0 {
      var moved := StepProgress(s, events[0]);
      DeadBindingStep(s, events[0], h, b, r);
      StepKeeps(s, events[0]);
      DeadStays(s, events[0]);
      PublishedStays(s, Apply(s, events[0]), moved, h, b);
      DeadBindingDeliversNothing(Apply(s, events[0]), events[1..], h, b, r);
    }
  }

  /** Once its KEM key is dead, no decaps of h that is not already past the KPS ever answers 200. */
  lemma {:induction false} DeadKemDeliversNothing(s: State, events: seq<Event>, h: Uuid, r: nat)
    requires Inv(s) && CanRun(s, events) && KemDead(s, h) && !Delivered(s, r, h) && !Boxed(s, r, h)
    ensures !Delivered(Run(s, events), r, h)
    decreases |events|
  {
    if |events| > 0 {
      var e := events[0];
      var moved := StepProgress(s, e);
      DeliveryStep(s, e, r, h);
      if e.DecSeal? && e.r == r && e.reachable {
        assert RequestOk(s, r);
        SealSucceedsIff(s, r, e.ephemeral);
      }
      StepKeeps(s, e);
      DeadStays(s, e);
      DeadKemDeliversNothing(Apply(s, e), events[1..], h, r);
    }
  }

  /** A mapping whose KEM or binding key is gone is inert: no decaps begun from now on answers 200. */
  lemma DeadMappingIsInert(c: Curve, before: seq<Event>, after: seq<Event>, h: Uuid, r: nat)
    requires CanRun(Init(c), before) && CanRun(Run(Init(c), before), after)
    requires var s := Run(Init(c), before);
             h in s.mapping && r !in s.requests && (KemDead(s, h) || BindingDead(s, s.mapping[h]))
    ensures !Delivered(Run(Run(Init(c), before), after), r, h)
  {
    var s := Reached(c, before);
    if KemDead(s, h) {
      DeadKemDeliversNothing(s, after, h, r);
    } else {
      DeadBindingDeliversNothing(s, after, h, s.mapping[h], r);
    }
  }

  // ---------- destroy ----------

  predicate Destroyed(s: State, r: nat, h: Uuid) {
    r in s.requests && s.requests[r].DesDone? && s.requests[r].h == h && Answer(s.requests[r]) == Some(204)
  }

  lemma DestroyedMeansBothRemoved(q: Request)
    requires q.DesDone?
    ensures Answer(q) == Some(204) <==> q.kpsError.None? && q.wsdError.None?
  {
    if q.kpsError.Some? || q.wsdError.Some? {
      assert HttpStatus(JoinErrors(q.kpsError, q.wsdError)) != 204;
    }
  }

  /** Across any run at most one destroy of a handle answers 204. */
  lemma DestroyAnswersOnce(c: Curve, events: seq<Event>, h: Uuid, r: nat, r': nat)
    requires CanRun(Init(c), events)
    requires Destroyed(Run(Init(c), events), r, h) && Destroyed(Run(Init(c), events), r', h)
    ensures r == r'
  {
    var s := Reached(c, events);
    DestroyedMeansBothRemoved(s.requests[r]);
    DestroyedMeansBothRemoved(s.requests[r']);
  }

  /** After a 204 no decaps of that handle ever answers 200, including those in flight past the KPS. */
  lemma DestroyIsFinal(c: Curve, before: seq<Event>, after: seq<Event>, h: Uuid, d: nat, r: nat)
    requires CanRun(Init(c), before) && CanRun(Run(Init(c), before), after)
    requires Destroyed(Run(Init(c), before), d, h) && !Delivered(Run(Init(c), before), r, h)
    ensures !Delivered(Run(Run(Init(c), before), after), r, h)
  {
    var s := Reached(c, before);
    assert RequestOk(s, d);
    DeadBindingDeliversNothing(s, after, h, s.requests[d].b, r);
  }

  // ---------- accounting ----------

  predicate WipesSucceed(events: seq<Event>) {
    forall i :: 0 <= i < |events| ==> events[i] != CleanWipe(false)
  }

  predicate NothingLeaked(s: State) {
    s.past.leaked == {} && (s.heart.Wiped? ==> s.heart.ok)
  }

  lemma NoLeakInStep(s: State, e: Event)
    requires Enabled(s, e) && e != CleanWipe(false) && NothingLeaked(s)
    ensures NothingLeaked(Apply(s, e))
  {
  }

  lemma {:induction false} NoLeakWithoutFailedWipe(s: State, events: seq<Event>)
    requires CanRun(s, events) && WipesSucceed(events) && NothingLeaked(s)
    ensures NothingLeaked(Run(s, events))
    decreases |events|
  {
    if |events| > 0 {
      assert events[0] != CleanWipe(false);
      NoLeakInStep(s, events[0]);
      NoLeakWithoutFailedWipe(Apply(s, events[0]), events[1..]);
    }
  }

  /** Request r made binding key b and is in flight or failed at the KEM step. */
  predicate PendingOrFailed(s: State, r: nat, b: Uuid) {
    r in s.requests &&
    var q := s.requests[r];
    (q.GenBound? || q.GenKeyed? || q.GenFailed?) && q.b == b
  }

  /** As long as DestroyAllKeys succeeds, every binding key in the registry is mapped, or its generate
      is in flight or failed at the KEM step. */
  lemma BindingsAreAccountedFor(c: Curve, events: seq<Event>, b: Uuid)
    requires CanRun(Init(c), events) && WipesSucceed(events) && b in Run(Init(c), events).wsd.keys
    ensures var s := Run(Init(c), events);
            (exists h :: h in s.mapping && s.mapping[h] == b) || (exists r :: PendingOrFailed(s, r, b))
  {
    var s := Reached(c, events);
    NoLeakWithoutFailedWipe(Init(c), events);
    assert AccountedFor(s, b);
    var r := s.past.bindings[b].owner;
    if s.requests[r].GenDone? {
      assert s.requests[r].h in s.mapping;
    } else {
      assert PendingOrFailed(s, r, b);
    }
  }
}
