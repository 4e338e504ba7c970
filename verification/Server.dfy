/**
  The workload daemon's handlers as they run, over mutable registries, buffers and the map.
  `model` follows the protocol's state machine step by step: a handler that is not
  interrupted is a run of that machine made of its own request's steps, and answers what
  the machine answers. Interleaved runs cut handlers at the same step boundaries.
  */
module WorkloadServer {
  import opened Integers
  import opened Statuses
  import opened SymbolicBytes
  import opened Handles
  import opened X25519
  import opened DecapsContext
  import opened KeyTypes
  import opened Listing
  import opened Enumerate
  import opened Custody
  import opened RemoteKps
  import opened Backoff
  import opened Protocol
  import opened Invariant
  import opened Guarantees
  import opened Availability

  /** A run made of the steps of one request. */
  datatype Trace = Trace(start: State, steps: seq<Event>, r: nat)

  /** The trace is such a run, and leads to s. */
  ghost predicate Follows(t: Trace, s: State) {
    && CanRun(t.start, t.steps) && Run(t.start, t.steps) == s
    && forall i :: 0 <= i < |t.steps| ==> Movers(t.steps[i]) == {t.r}
  }

  function Then(t: Trace, e: Event): Trace {
    t.(steps := t.steps + [e])
  }

  lemma Extends(t: Trace, s: State, e: Event)
    requires Follows(t, s) && Enabled(s, e) && Movers(e) == {t.r}
    ensures Follows(Then(t, e), Apply(s, e))
  {
    RunExtends(t.start, t.steps, e);
  }

  /** Between two points of a trace lies the step that was added. */
  lemma StepOf(t: Trace, s: State, e: Event, s': State)
    requires Follows(t, s) && Follows(Then(t, e), s')
    ensures Enabled(s, e) && s' == Apply(s, e)
  {
    RunSplits(t.start, t.steps, e);
  }

  function BindingRecord(draw: Draw, now: nat, secs: nat): KeyRecord {
    NewRecord(draw, now, secs, Binding(SUITE, PublicKey(draw.secret)))
  }

  function KemRecord(draw: Draw, now: nat, secs: nat, bindingPub: Key32): KeyRecord {
    NewRecord(draw, now, secs, KemWithBindingPub(SUITE, PublicKey(draw.secret), bindingPub))
  }

  function NumberOr500(e: Option<Error>): int {
    if e.Some? then HttpStatus(e) else 500
  }

  lemma TwoFailures()
    ensures HttpStatus(Some(FfiStatus(NotFound))) == 404 && HttpStatus(Some(UNREACHABLE)) == 500
  {
    HttpStatusOfChain(FfiStatus(NotFound));
    HttpStatusOfChain(UNREACHABLE);
  }

  lemma JoinedStatus(a: Option<Error>, b: Option<Error>)
    requires a.Some? || b.Some?
    ensures HttpStatus(JoinErrors(a, b)) == First(NumberOr500(a), NumberOr500(b))
  {
    var e := if a.Some? then a.value else b.value;
    var e' := if b.Some? then b.value else a.value;
    HttpStatusOfTrees(e, e');
    SameWhenJoinedTwice(a, b, e, e');
  }

  lemma SameWhenJoinedTwice(a: Option<Error>, b: Option<Error>, e: Error, e': Error)
    requires a.Some? || b.Some?
    requires e == (if a.Some? then a.value else b.value) && e' == if b.Some? then b.value else a.value
    ensures HttpStatus(JoinErrors(a, b)) == HttpStatus(Some(Join([e, e'])))
  {
    forall c ensures Carries(JoinErrors(a, b), c) <==> Carries(Some(Join([e, e'])), c) {
      JoinCarriesEither(a, b, c);
      JoinCarriesEither(Some(e), Some(e'), c);
    }
    assert JoinErrors(Some(e), Some(e')).value == Join([e, e']);
    SameCodesSameStatus(JoinErrors(a, b).value, Join([e, e']));
  }

  /** Request r stands at q. */
  predicate At(s: State, r: nat, q: Request) {
    r in s.requests && s.requests[r] == q
  }

  /** The state cleanup leaves, started from `s` on its way to the lock; `wiped` is whether
      DestroyAllKeys succeeded. */
  ghost function CleanedUp(s: State, wiped: bool): State
    requires s.heart.WantLock?
  {
    CleanResetStep(CleanWipeStep(s.(heart := Locked(s.heart.next)), wiped))
  }

  lemma CleanupIsARun(s: State, e: Event, wiped: bool)
    requires Enabled(s, e) && Apply(s, e).heart.WantLock?
    ensures var steps := [e, CleanLock, CleanWipe(wiped), CleanReset];
            CanRun(s, steps) && Run(s, steps) == CleanedUp(Apply(s, e), wiped)
  {
    RunOne(s, e);
    LockedCleanupIsARun(Apply(s, e), wiped);
    RunConcat(s, [e], [CleanLock, CleanWipe(wiped), CleanReset]);
    assert [e] + [CleanLock, CleanWipe(wiped), CleanReset] == [e, CleanLock, CleanWipe(wiped), CleanReset];
  }

  lemma LockedCleanupIsARun(s: State, wiped: bool)
    requires s.heart.WantLock?
    ensures var steps := [CleanLock, CleanWipe(wiped), CleanReset];
            CanRun(s, steps) && Run(s, steps) == CleanedUp(s, wiped)
  {
    RunOne(s, CleanLock);
    RunExtends(s, [CleanLock], CleanWipe(wiped));
    assert [CleanLock] + [CleanWipe(wiped)] == [CleanLock, CleanWipe(wiped)];
    RunExtends(s, [CleanLock, CleanWipe(wiped)], CleanReset);
    assert [CleanLock, CleanWipe(wiped)] + [CleanReset] == [CleanLock, CleanWipe(wiped), CleanReset];
  }

  // ---------- the KPS restarting during a heartbeat ----------

  function Flat(groups: seq<seq<nat>>): seq<nat> {
    if |groups| == 0 then [] else groups[0] + Flat(groups[1..])
  }

  /** Restarts at which the KPS's clock begins anew at the given readings. */
  function Restarts(clocks: seq<nat>): (events: seq<Event>)
    ensures |events| == |clocks|
  {
    seq(|clocks|, i requires 0 <= i < |clocks| => KpsReboot(clocks[i]))
  }

  ghost function Restarted(s: State, clocks: seq<nat>): State {
    if |clocks| == 0 then s else s.(kps := Host(map[], clocks[|clocks| - 1]), boot := s.boot + |clocks|)
  }

  lemma {:induction false} RestartsAreARun(s: State, clocks: seq<nat>)
    ensures CanRun(s, Restarts(clocks)) && Run(s, Restarts(clocks)) == Restarted(s, clocks)
    decreases |clocks|
  {
    if |clocks| > 0 {
      assert Restarts(clocks)[1..] == Restarts(clocks[1..]);
      RestartsAreARun(Apply(s, KpsReboot(clocks[0])), clocks[1..]);
    }
  }

  // ---------- what the workload is shown ----------

  datatype KeyInfo = KeyInfo(handle: string, kemAlgorithm: Int32, publicKey: Bytes)

  predicate Names(infos: seq<KeyInfo>, id: Uuid) {
    exists i :: 0 <= i < |infos| && infos[i].handle == UuidText(id)
  }

  /** The infos are the page's KEM keys. */
  ghost predicate Shows(infos: seq<KeyInfo>, page: Metas) {
    && |infos| == |page|
    && forall i :: 0 <= i < |page| ==>
         && page[i].spec.KemWithBindingPub?
         && infos[i] == KeyInfo(UuidText(page[i].id), page[i].spec.algo.kem, page[i].spec.kemPublicKey)
  }

  lemma ShownIsNamed(keys: Keys, now: nat, l: Metas, infos: seq<KeyInfo>, limit: nat, id: Uuid)
    requires WellKeyed(keys) && IsListing(keys, now, l) && Shows(infos, Page(l, 0, limit))
    requires |l| <= limit && Live(keys, now, id)
    ensures Names(infos, id)
  {
    assert Listed(keys, now, keys[id].meta);
    var i :| 0 <= i < |l| && l[i] == keys[id].meta;
    assert infos[i].handle == UuidText(id);
  }

  lemma NextIsNotNamed(keys: Keys, now: nat, l: Metas, infos: seq<KeyInfo>, limit: nat)
    requires IsListing(keys, now, l) && limit < |l| && Shows(infos, Page(l, 0, limit))
    ensures Live(keys, now, l[limit].id) && !Names(infos, l[limit].id)
  {
    assert Listed(keys, now, l[limit]);
    forall i | 0 <= i < |infos|
      ensures infos[i].handle != UuidText(l[limit].id)
    {
      ListedOnce(keys, now, l, i, limit);
      UuidRoundTrip(l[i].id);
      UuidRoundTrip(l[limit].id);
    }
  }

  /** A first page names every live key exactly when all of them fit on it. */
  lemma FirstPageNamesAllIff(keys: Keys, now: nat, l: Metas, infos: seq<KeyInfo>, limit: nat)
    requires WellKeyed(keys) && IsListing(keys, now, l) && Shows(infos, Page(l, 0, limit))
    ensures (forall id :: Live(keys, now, id) ==> Names(infos, id)) <==> |l| <= limit
  {
    if |l| <= limit {
      forall id | Live(keys, now, id)
        ensures Names(infos, id)
      {
        ShownIsNamed(keys, now, l, infos, limit, id);
      }
    } else {
      NextIsNotNamed(keys, now, l, infos, limit);
    }
  }

  class Server {
    const curve: Curve
    const kps: KeyRegistry
    const wsd: KeyRegistry
    var kemToBindingMap: map<Uuid, Uuid>
    var cachedToken: Option<nat>
    ghost var model: State

    ghost predicate Valid()
      reads this, kps, wsd
    {
      && kps != wsd
      && model.curve == curve
      && model.kps.keys == kps.keys
      && model.wsd.keys == wsd.keys
      && model.mapping == kemToBindingMap
      && model.cached == cachedToken
      && model.heart.Idle?
    }

    constructor (c: Curve)
      ensures Valid() && fresh(kps) && fresh(wsd) && curve == c && model == Init(c)
    {
      curve := c;
      kps := new KeyRegistry();
      wsd := new KeyRegistry();
      kemToBindingMap := map[];
      cachedToken := None;
      model := Init(c);
    }

    /** In a daemon that is in order, what is found is the binding key that h was generated with, and
        it belongs to no other handle. */
    method LookupBindingUuid(h: Uuid) returns (b: Option<Uuid>)
      requires Valid()
      ensures b.Some? <==> h in model.mapping
      ensures b.Some? ==> (h, b.value) in model.mapping.Items
      ensures b.Some? && Inv(model) ==>
                && Published(model, h, b.value)
                && forall h' :: h' in model.mapping && model.mapping[h'] == b.value ==> h' == h
    {
      b := if h in kemToBindingMap then Some(kemToBindingMap[h]) else None;
    }

    // ---------- generate ----------

    method MakeBinding(secs: nat, now: nat, draw: Draw, ghost t: Trace)
      returns (made: Result<(Uuid, Key32)>, ghost t': Trace)
      requires Valid() && Follows(t, model) && t.r !in model.requests
      requires Unused(model, draw.id) && now == model.wsd.clock
      modifies this`model, wsd
      ensures Valid() && t' == Then(t, GenBind(t.r, secs, draw)) && Follows(t', model)
      ensures match made
              case Ok((b, pk)) => b == draw.id && At(model, t.r, GenBound(secs, b, pk))
              case Err(e) => At(model, t.r, GenRejected(FfiStatus(e)))
      ensures model.kps == old(model.kps)
      ensures forall id :: id != draw.id && Unused(old(model), id) ==> Unused(model, id)
      ensures var fits := now + secs * SECOND <= MAX_INSTANT;
              && (made.Ok? <==> draw.vaultOk && fits)
              && (made.Ok? ==> made.value.1 == PublicKey(draw.secret))
              && (made.Err? ==> HttpStatus(Some(FfiStatus(made.status))) == if draw.vaultOk then 400 else 500)
              && wsd.keys == if made.Ok? then old(wsd.keys)[draw.id := BindingRecord(draw, now, secs)]
                             else old(wsd.keys)
    {
      made := AskForBinding(wsd, secs, now, draw);
      Extends(t, model, GenBind(t.r, secs, draw));
      model, t' := GenBindStep(model, t.r, secs, draw), Then(t, GenBind(t.r, secs, draw));
    }

    method MakeKem(secs: nat, b: Uuid, bindingPub: Key32, now: nat, draw: Draw, reachable: bool, ghost t: Trace)
      returns (h: Uuid, kemPub: Key32, error: Option<Error>, ghost t': Trace)
      requires Valid() && Follows(t, model) && At(model, t.r, GenBound(secs, b, bindingPub))
      requires Unused(model, draw.id) && now == model.kps.clock
      modifies this`model, kps
      ensures Valid() && t' == Then(t, GenKem(t.r, reachable, draw)) && Follows(t', model)
      ensures At(model, t.r, if error.None? then GenKeyed(b, h, kemPub) else GenFailed(b, error.value))
      ensures var fits := now + secs * SECOND <= MAX_INSTANT;
              && (error.None? <==> reachable && draw.vaultOk && fits)
              && (error.None? ==> (h, kemPub) == (draw.id, PublicKey(draw.secret)))
              && (error.Some? ==> HttpStatus(error) == if reachable && draw.vaultOk then 400 else 500)
              && kps.keys == if error.None? then old(kps.keys)[draw.id := KemRecord(draw, now, secs, bindingPub)]
                             else old(kps.keys)
    {
      h, kemPub, error := AskForKem(kps, secs, bindingPub, now, draw, reachable);
      Extends(t, model, GenKem(t.r, reachable, draw));
      model, t' := GenKemStep(model, t.r, reachable, draw), Then(t, GenKem(t.r, reachable, draw));
    }

    method StoreMapping(h: Uuid, b: Uuid, ghost kemPub: Key32, ghost t: Trace) returns (ghost t': Trace)
      requires Valid() && Follows(t, model) && At(model, t.r, GenKeyed(b, h, kemPub))
      modifies this`model, this`kemToBindingMap
      ensures Valid() && t' == Then(t, GenMap(t.r)) && Follows(t', model)
      ensures At(model, t.r, GenDone(b, h, kemPub)) && kemToBindingMap == old(kemToBindingMap)[h := b]
    {
      kemToBindingMap := kemToBindingMap[h := b];
      Extends(t, model, GenMap(t.r));
      model, t' := GenMapStep(model, t.r), Then(t, GenMap(t.r));
    }

    /** Generate: binding key, then KEM key, then mapping; stops at the first failure. */
    method GenerateKemKey(secs: nat, wsdNow: nat, kpsNow: nat, bindingDraw: Draw, kemDraw: Draw, reachable: bool,
                          ghost r: nat)
      returns (answer: int, handle: Option<(Uuid, Key32)>, ghost t: Trace)
      requires Valid() && r !in model.requests && wsdNow == model.wsd.clock && kpsNow == model.kps.clock
      requires Unused(model, bindingDraw.id) && Unused(model, kemDraw.id) && bindingDraw.id != kemDraw.id
      modifies this, kps, wsd
      ensures Valid() && Follows(t, model) && t.start == old(model) && t.r == r
      ensures r in model.requests && Answer(model.requests[r]) == Some(answer)
      ensures handle.Some? ==> At(model, r, GenDone(bindingDraw.id, handle.value.0, handle.value.1))
      ensures handle.None? ==> model.requests[r].GenRejected? || model.requests[r].GenFailed?
      ensures kemToBindingMap ==
              if handle.Some? then old(kemToBindingMap)[handle.value.0 := bindingDraw.id] else old(kemToBindingMap)
      ensures var bound := bindingDraw.vaultOk && wsdNow + secs * SECOND <= MAX_INSTANT;
              var reached := bound && reachable && kemDraw.vaultOk;
              var made := reached && kpsNow + secs * SECOND <= MAX_INSTANT;
              && (handle.Some? <==> made)
              && (made ==> handle.value == (kemDraw.id, PublicKey(kemDraw.secret)))
              && answer == (if made then 200 else if bindingDraw.vaultOk && (bound ==> reached) then 400 else 500)
              && wsd.keys == (if bound then old(wsd.keys)[bindingDraw.id := BindingRecord(bindingDraw, wsdNow, secs)]
                              else old(wsd.keys))
              && kps.keys == if made then old(kps.keys)[kemDraw.id :=
                                          KemRecord(kemDraw, kpsNow, secs, PublicKey(bindingDraw.secret))]
                             else old(kps.keys)
    {
      handle, t := None, Trace(model, [], r);
      var bound, h, kemPub, error;
      bound, t := MakeBinding(secs, wsdNow, bindingDraw, t);
      if bound.Err? {
        answer := HttpStatus(Some(FfiStatus(bound.status)));
        return;
      }
      h, kemPub, error, t := MakeKem(secs, bound.value.0, bound.value.1, kpsNow, kemDraw, reachable, t);
      if error.Some? {
        answer := HttpStatus(error);
        return;
      }
      t := StoreMapping(h, bound.value.0, kemPub, t);
      answer, handle := 200, Some((h, kemPub));
    }

    // ---------- decaps ----------

    method LookForDecaps(h: Uuid, algorithm: int, enc: Bytes, ghost t: Trace)
      returns (b: Option<Uuid>, status: int, ghost t': Trace)
      requires Valid() && Follows(t, model) && t.r !in model.requests
      modifies this`model
      ensures Valid() && t' == Then(t, DecLook(t.r, h, algorithm, enc)) && Follows(t', model)
      ensures At(model, t.r, if b.Some? then DecLooked(h, algorithm, enc, b.value) else DecFailed(status))
      ensures model.kps == old(model.kps) && model.wsd == old(model.wsd)
    {
      b, status := None, 400;
      if algorithm == 1 && |enc| != 0 {
        b := LookupBindingUuid(h);
        status := 404;
      }
      Extends(t, model, DecLook(t.r, h, algorithm, enc));
      model, t' := DecLookStep(model, t.r, h, algorithm, enc), Then(t, DecLook(t.r, h, algorithm, enc));
    }

    method SealAtKps(h: Uuid, algorithm: int, enc: Bytes, b: Uuid, now: nat, reachable: bool, ephemeral: Key32,
                     ghost t: Trace)
      returns (box: Option<(Bytes, Bytes)>, status: int, ghost t': Trace)
      requires Valid() && Follows(t, model) && At(model, t.r, DecLooked(h, algorithm, enc, b)) && now == model.kps.clock
      modifies this`model
      ensures Valid() && t' == Then(t, DecSeal(t.r, reachable, ephemeral)) && Follows(t', model)
      ensures At(model, t.r,
                 if box.Some? then DecSealed(h, algorithm, enc, b, box.value.0, box.value.1) else DecFailed(status))
      ensures model.wsd == old(model.wsd) && (box.None? ==> status >= 400)
    {
      box, status := AskToSeal(curve, kps, now, h, enc, Aad(h, algorithm), ephemeral, reachable);
      Extends(t, model, DecSeal(t.r, reachable, ephemeral));
      model, t' := DecSealStep(model, t.r, reachable, ephemeral), Then(t, DecSeal(t.r, reachable, ephemeral));
    }

    method OpenAtWsd(h: Uuid, algorithm: int, enc: Bytes, b: Uuid, box: (Bytes, Bytes), now: nat, ghost t: Trace)
      returns (secret: Option<Bytes>, status: int, ghost t': Trace)
      requires Valid() && Follows(t, model) && At(model, t.r, DecSealed(h, algorithm, enc, b, box.0, box.1))
      requires now == model.wsd.clock
      modifies this`model
      ensures Valid() && t' == Then(t, DecOpen(t.r)) && Follows(t', model)
      ensures At(model, t.r, if secret.Some? then DecDone(h, algorithm, enc, secret.value) else DecFailed(status))
      ensures secret.None? ==> status >= 400
    {
      secret, status := AskToOpen(curve, wsd, now, b, box, Aad(h, algorithm));
      Extends(t, model, DecOpen(t.r));
      model, t' := DecOpenStep(model, t.r), Then(t, DecOpen(t.r));
    }

    /** Decaps: look up, reseal at the KPS, open with the binding key. */
    method RunDecaps(h: Uuid, algorithm: int, enc: Bytes, wsdNow: nat, kpsNow: nat, reachable: bool,
                     ephemeral: Key32, ghost r: nat)
      returns (answer: int, secret: Option<Bytes>, ghost t: Trace)
      requires Valid() && r !in model.requests && wsdNow == model.wsd.clock && kpsNow == model.kps.clock
      modifies this`model
      ensures Valid() && Follows(t, model) && t.start == old(model) && t.r == r
      ensures At(model, r, if secret.Some? then DecDone(h, algorithm, enc, secret.value) else DecFailed(answer))
      ensures answer == 200 <==> secret.Some?
      ensures Inv(old(model)) ==> At(model, r, Verdict(old(model), h, algorithm, enc, reachable))
    {
      secret, t := None, Trace(model, [], r);
      ghost var s, t0 := model, t;
      var b, box;
      b, answer, t := LookForDecaps(h, algorithm, enc, t);
      ghost var s1, t1 := model, t;
      StepOf(t0, s, DecLook(r, h, algorithm, enc), s1);
      if b.None? {
        LookVerdict(s, r, h, algorithm, enc, reachable);
        return;
      }
      box, answer, t := SealAtKps(h, algorithm, enc, b.value, kpsNow, reachable, ephemeral, t);
      ghost var s2, t2 := model, t;
      StepOf(t1, s1, DecSeal(r, reachable, ephemeral), s2);
      if box.None? {
        SealVerdict(s, s1, r, h, algorithm, enc, reachable, ephemeral);
        return;
      }
      secret, answer, t := OpenAtWsd(h, algorithm, enc, b.value, box.value, wsdNow, t);
      StepOf(t2, s2, DecOpen(r), model);
      OpenVerdict(s, s1, s2, r, h, algorithm, enc, reachable, ephemeral);
      if secret.Some? {
        answer := 200;
      }
    }

    /** The handler, with every answer it can give in a daemon that is in order. */
    method HandleDecaps(h: Uuid, algorithm: int, enc: Bytes, wsdNow: nat, kpsNow: nat, reachable: bool,
                        ephemeral: Key32, ghost r: nat)
      returns (answer: int, secret: Option<Bytes>, ghost t: Trace)
      requires Valid() && r !in model.requests && wsdNow == model.wsd.clock && kpsNow == model.kps.clock
      modifies this`model
      ensures Valid() && Follows(t, model) && t.start == old(model) && t.r == r
      ensures r in model.requests && Answer(model.requests[r]) == Some(answer)
      ensures At(model, r, if secret.Some? then DecDone(h, algorithm, enc, secret.value) else DecFailed(answer))
      ensures answer == 200 <==> secret.Some?
      ensures Inv(old(model)) ==>
                var asked := algorithm == 1 && |enc| > 0;
                var mapped := h in kemToBindingMap;
                var found := reachable && Live(kps.keys, kpsNow, h);
                var decapsulated := found && Decaps(curve, kps.keys[h].privateKey, enc).Ok?;
                var delivered := decapsulated && mapped && Live(wsd.keys, wsdNow, kemToBindingMap[h]);
                && (secret.Some? <==> asked && delivered)
                && (secret.Some? ==> Ok(secret.value) == Decaps(curve, kps.keys[h].privateKey, enc))
                && answer == if !asked then 400
                             else if !mapped then 404
                             else if !reachable then 500
                             else if !found then 404
                             else if !decapsulated then 500
                             else if !delivered then 404
                             else 200
    {
      answer, secret, t := RunDecaps(h, algorithm, enc, wsdNow, kpsNow, reachable, ephemeral, r);
    }

    // ---------- destroy ----------

    method LookForDestroy(h: Uuid, ghost t: Trace) returns (b: Option<Uuid>, ghost t': Trace)
      requires Valid() && Follows(t, model) && t.r !in model.requests
      modifies this`model
      ensures Valid() && t' == Then(t, DesLook(t.r, h)) && Follows(t', model)
      ensures At(model, t.r, if b.Some? then DesLooked(h, b.value) else DesUnknown)
      ensures b == if h in kemToBindingMap then Some(kemToBindingMap[h]) else None
    {
      b := LookupBindingUuid(h);
      Extends(t, model, DesLook(t.r, h));
      model, t' := DesLookStep(model, t.r, h), Then(t, DesLook(t.r, h));
    }

    method DestroyAtKps(h: Uuid, b: Uuid, reachable: bool, ghost t: Trace)
      returns (error: Option<Error>, ghost t': Trace)
      requires Valid() && Follows(t, model) && At(model, t.r, DesLooked(h, b))
      modifies this`model, kps
      ensures Valid() && t' == Then(t, DesAtKps(t.r, reachable)) && Follows(t', model)
      ensures At(model, t.r, DesKps(h, b, error))
      ensures error == if !reachable then Some(UNREACHABLE)
                       else if h in old(kps.keys) then None
                       else Some(FfiStatus(NotFound))
      ensures kps.keys == if reachable then old(kps.keys) - {h} else old(kps.keys)
    {
      error := Some(UNREACHABLE);
      if reachable {
        var failed := RunDestroy(kps, h);
        error := if failed.Some? then Some(FfiStatus(failed.value)) else None;
      }
      Extends(t, model, DesAtKps(t.r, reachable));
      model, t' := DesAtKpsStep(model, t.r, reachable), Then(t, DesAtKps(t.r, reachable));
    }

    method DestroyAtWsd(h: Uuid, b: Uuid, ghost kpsError: Option<Error>, ghost t: Trace)
      returns (error: Option<Error>, ghost t': Trace)
      requires Valid() && Follows(t, model) && At(model, t.r, DesKps(h, b, kpsError))
      modifies this`model, wsd
      ensures Valid() && t' == Then(t, DesAtWsd(t.r)) && Follows(t', model)
      ensures At(model, t.r, DesBoth(h, b, kpsError, error))
      ensures error == if b in old(wsd.keys) then None else Some(FfiStatus(NotFound))
      ensures wsd.keys == old(wsd.keys) - {b}
    {
      var failed := RunDestroy(wsd, b);
      error := if failed.Some? then Some(FfiStatus(failed.value)) else None;
      Extends(t, model, DesAtWsd(t.r));
      model, t' := DesAtWsdStep(model, t.r), Then(t, DesAtWsd(t.r));
    }

    method RemoveMapping(h: Uuid, ghost b: Uuid, ghost kpsError: Option<Error>, ghost wsdError: Option<Error>,
                         ghost t: Trace)
      returns (ghost t': Trace)
      requires Valid() && Follows(t, model) && At(model, t.r, DesBoth(h, b, kpsError, wsdError))
      modifies this`model, this`kemToBindingMap
      ensures Valid() && t' == Then(t, DesUnmap(t.r)) && Follows(t', model)
      ensures At(model, t.r, DesDone(h, b, kpsError, wsdError))
      ensures kemToBindingMap == old(kemToBindingMap) - {h}
    {
      kemToBindingMap := kemToBindingMap - {h};
      Extends(t, model, DesUnmap(t.r));
      model, t' := DesUnmapStep(model, t.r), Then(t, DesUnmap(t.r));
    }

    /** Destroy: both halves are attempted and the mapping goes whatever they say. */
    method HandleDestroy(h: Uuid, reachable: bool, ghost r: nat) returns (answer: int, ghost t: Trace)
      requires Valid() && r !in model.requests
      modifies this, kps, wsd
      ensures Valid() && Follows(t, model) && t.start == old(model) && t.r == r
      ensures r in model.requests && Answer(model.requests[r]) == Some(answer)
      ensures kemToBindingMap == old(kemToBindingMap) - {h}
      ensures if h !in old(kemToBindingMap) then answer == 404 && kps.keys == old(kps.keys) && wsd.keys == old(wsd.keys)
              else
                var b := old(kemToBindingMap)[h];
                && kps.keys == (if reachable then old(kps.keys) - {h} else old(kps.keys))
                && wsd.keys == old(wsd.keys) - {b}
                && answer == if b !in old(wsd.keys) then 404
                             else if !reachable then 500
                             else if h !in old(kps.keys) then 404
                             else 204
    {
      t := Trace(model, [], r);
      var b, kpsError, wsdError;
      b, t := LookForDestroy(h, t);
      if b.None? {
        answer := 404;
        return;
      }
      kpsError, t := DestroyAtKps(h, b.value, reachable, t);
      wsdError, t := DestroyAtWsd(h, b.value, kpsError, t);
      t := RemoveMapping(h, b.value, kpsError, wsdError, t);
      answer := DestroyAnswer(h, b.value, kpsError, wsdError);
      DestroyTable(kpsError, wsdError, answer);
    }

    // ---------- heartbeat ----------

    /** Cleanup, with the lock held throughout: every mapping goes, whether or not the binding keys
        could be destroyed. */
    method CleanupState(wiped: bool, ghost start: State)
      requires Valid() && start.heart.WantLock? && start == model.(heart := start.heart)
      modifies this`model, this`kemToBindingMap, wsd
      ensures model == CleanedUp(start, wiped) && kemToBindingMap == map[]
      ensures wsd.keys == if wiped then map[] else old(wsd.keys)
      ensures Valid() || start.heart.next.Some?
    {
      if wiped {
        wsd.RemoveAllKeys();
      }
      kemToBindingMap := map[];
      model := CleanedUp(start, wiped);
    }

    /** What a beat does once it has ended: cache the token, clean up, or neither. */
    method SettleBeat(ending: Ending, wiped: bool) returns (ghost steps: seq<Event>)
      requires Valid() && (ending.Answered? ==> ending.token == model.boot)
      modifies this, wsd
      ensures Valid() && CanRun(old(model), steps) && model == Run(old(model), steps)
      ensures var changed := ending.Answered? && old(cachedToken).Some? && old(cachedToken).value != ending.token;
              && kemToBindingMap == (if ending.GaveUp? || changed then map[] else old(kemToBindingMap))
              && wsd.keys == (if (ending.GaveUp? || changed) && wiped then map[] else old(wsd.keys))
              && cachedToken == (if ending.Answered? then Some(ending.token) else old(cachedToken))
              && model.boot == old(model.boot)
    {
      steps := [];
      if ending.Answered? {
        var token := ending.token;
        if cachedToken.Some? && cachedToken.value != token {
          CleanupIsARun(model, BeatToken, wiped);
          steps := [BeatToken, CleanLock, CleanWipe(wiped), CleanReset];
          CleanupState(wiped, model.(heart := WantLock(Some(token))));
        } else {
          RunOne(model, BeatToken);
          steps := [BeatToken];
          model := BeatTokenStep(model);
        }
        cachedToken := Some(token);
      } else if ending.GaveUp? {
        CleanupIsARun(model, BeatGiveUp, wiped);
        steps := [BeatGiveUp, CleanLock, CleanWipe(wiped), CleanReset];
        CleanupState(wiped, model.(heart := WantLock(None)));
      }
    }

    /** One heartbeat: attempts with backoff, then cache the token, clean up, or neither. Before
        attempt i the KPS restarts at the clock readings restarts[i], losing its keys, and an attempt
        that succeeds brings the token of the KPS then running. */
    method PerformHeartbeat(initial: int, max: int, attempts: seq<Attempt>, restarts: seq<seq<nat>>, wiped: bool)
      returns (beat: Beat, ghost steps: seq<Event>)
      requires Valid() && |restarts| == |attempts|
      requires forall i :: 0 <= i < |attempts| && attempts[i].Token? ==>
                 attempts[i].token == model.boot + |Flat(restarts[..i + 1])|
      modifies this, kps, wsd
      ensures Valid() && beat == BeatFrom(initial, max, attempts) && Tried(beat) <= |attempts|
      ensures CanRun(old(model), steps) && model == Run(old(model), steps)
      ensures var lost := Flat(restarts[..Tried(beat)]);
              var boot := old(model).boot + |lost|;
              var changed := beat.ending.Answered? && old(cachedToken).Some? && old(cachedToken).value != boot;
              && model.boot == boot
              && kps.keys == (if |lost| > 0 then map[] else old(kps.keys))
              && kemToBindingMap == (if beat.ending.GaveUp? || changed then map[] else old(kemToBindingMap))
              && wsd.keys == (if (beat.ending.GaveUp? || changed) && wiped then map[] else old(wsd.keys))
              && cachedToken == if beat.ending.Answered? then Some(boot) else old(cachedToken)
      ensures NoOverflow(initial, max) ==> forall i: nat ::
                Reaches(initial, max, attempts, i) && attempts[i].Token? ==>
                  var changed := old(cachedToken).Some? && old(cachedToken).value != attempts[i].token;
                  && cachedToken == Some(attempts[i].token)
                  && kemToBindingMap == (if changed then map[] else old(kemToBindingMap))
                  && wsd.keys == (if changed && wiped then map[] else old(wsd.keys))
      ensures NoOverflow(initial, max) && FailsThrough(initial, max, attempts) ==>
                && cachedToken == old(cachedToken) && kemToBindingMap == map[]
                && wsd.keys == (if wiped then map[] else old(wsd.keys))
      ensures && NoOverflow(initial, max) && !FailsThrough(initial, max, attempts)
              && (forall i: nat :: Reaches(initial, max, attempts, i) ==> !attempts[i].Token?) ==>
                && cachedToken == old(cachedToken) && kemToBindingMap == old(kemToBindingMap)
                && wsd.keys == old(wsd.keys)
    {
      beat := RunBeat(initial, max, attempts);
      if NoOverflow(initial, max) {
        EndingIs(initial, max, attempts);
      }
      TriesWithinAttempts(initial, max, attempts);
      var lost := Flat(restarts[..Tried(beat)]);
      if |lost| > 0 {
        kps.RemoveAllKeys();
      }
      RestartsAreARun(model, lost);
      model := Restarted(model, lost);
      ghost var settled := SettleBeat(beat.ending, wiped);
      RunConcat(old(model), Restarts(lost), settled);
      steps := Restarts(lost) + settled;
    }

    // ---------- enumerate ----------

    /** The keys shown to the workload are the first page of the KPS's listing, the same whether the
        KPS is remote or in process; all live keys are shown exactly when they fit that page. */
    method HandleEnumerateKeys(order: seq<Uuid>, now: nat, times: seq<nat>, remote: bool, table: seq<Status>)
      returns (answer: int, infos: seq<KeyInfo>)
      requires Valid() && Inv(model) && Enumerates(order, kps.keys)
      requires |times| == DEFAULT_ENUMERATE_LIMIT && IsTableOrder(table)
      ensures answer == 200
      ensures exists l :: IsListing(kps.keys, now, l)
      ensures forall l :: IsListing(kps.keys, now, l) ==>
                && Shows(infos, Page(l, 0, DEFAULT_ENUMERATE_LIMIT))
                && ((forall id :: Live(kps.keys, now, id) ==> Names(infos, id)) <==> |l| <= DEFAULT_ENUMERATE_LIMIT)
    {
      EnumerableWhenOk(model);
      DaemonRequestIsValid();
      var near, far := EnumerateBothWays(kps.keys, order, now, times, DEFAULT_ENUMERATE_LIMIT, 0, table);
      var reply := if remote then far else near;
      answer := HttpStatus(AsError(reply));
      infos := ShowKeys(reply.value.0);
      forall l | IsListing(kps.keys, now, l)
        ensures Shows(infos, Page(l, 0, DEFAULT_ENUMERATE_LIMIT))
        ensures (forall id :: Live(kps.keys, now, id) ==> Names(infos, id)) <==> |l| <= DEFAULT_ENUMERATE_LIMIT
      {
        assert ShowsPage(reply.value.0, Page(l, 0, DEFAULT_ENUMERATE_LIMIT), times);
        FirstPageNamesAllIff(kps.keys, now, l, infos, DEFAULT_ENUMERATE_LIMIT);
      }
    }
  }

  /** The Go callers, which pass buffers of fixed size. */
  method SealIntoBuffers(c: Curve, kps: KeyRegistry, now: nat, h: Uuid, enc: Bytes, aad: Bytes, ephemeral: Key32)
    returns (r: Result<(Bytes, Bytes)>)
    ensures r == DecapAndSeal(c, kps.keys, now, h, enc, aad, ephemeral, ENC_BUF, SEALED_BUF)
  {
    var sealEnc, sealedCt := new Octet[ENC_BUF](_ => Lit(0)), new Octet[SEALED_BUF](_ => Lit(0));
    var failed := RunDecapAndSeal(c, kps, now, h, enc, aad, ephemeral, sealEnc, sealedCt);
    r := if failed.Some? then Err(failed.value) else Ok((sealEnc[..], sealedCt[..]));
  }

  method OpenIntoBuffer(c: Curve, wsd: KeyRegistry, now: nat, b: Uuid, box: (Bytes, Bytes), aad: Bytes)
    returns (r: Result<Bytes>)
    ensures r == Open(c, wsd.keys, now, b, box.0, box.1, aad, SECRET_BUF)
  {
    var out := new Octet[SECRET_BUF](_ => Lit(0));
    var failed := RunOpen(c, wsd, now, b, box.0, box.1, aad, out);
    r := if failed.Some? then Err(failed.value) else Ok(out[..]);
  }

  /** Generation with the daemon's one suite and its 32-byte buffer. */
  method AskForBinding(wsd: KeyRegistry, secs: nat, now: nat, draw: Draw) returns (made: Result<(Uuid, Key32)>)
    modifies wsd
    ensures (wsd.keys, made) == GenerateBinding(SUITE, secs, old(wsd.keys), now, draw, PUBKEY_BUF)
    ensures made.Ok? <==> draw.vaultOk && now + secs * SECOND <= MAX_INSTANT
    ensures made.Ok? ==> made.value == (draw.id, PublicKey(draw.secret))
    ensures made.Err? ==> HttpStatus(Some(FfiStatus(made.status))) == if draw.vaultOk then 400 else 500
    ensures wsd.keys == if made.Ok? then old(wsd.keys)[draw.id := BindingRecord(draw, now, secs)] else old(wsd.keys)
  {
    made := RunGenerateBinding(wsd, SUITE, secs, now, draw, PUBKEY_BUF);
    if made.Err? {
      HttpStatusOfChain(FfiStatus(made.status));
    }
  }

  method AskForKem(kps: KeyRegistry, secs: nat, bindingPub: Key32, now: nat, draw: Draw, reachable: bool)
    returns (h: Uuid, kemPub: Key32, error: Option<Error>)
    modifies kps
    ensures var (keys, made) := GenerateKem(SUITE, bindingPub, secs, old(kps.keys), now, draw, PUBKEY_BUF);
            if !reachable then error == Some(UNREACHABLE)
            else kps.keys == keys && if made.Ok? then error.None? && (h, kemPub) == made.value
                                     else error == Some(FfiStatus(made.status))
    ensures error.None? <==> reachable && draw.vaultOk && now + secs * SECOND <= MAX_INSTANT
    ensures error.None? ==> (h, kemPub) == (draw.id, PublicKey(draw.secret))
    ensures error.Some? ==> HttpStatus(error) == if reachable && draw.vaultOk then 400 else 500
    ensures kps.keys ==
            if error.None? then old(kps.keys)[draw.id := KemRecord(draw, now, secs, bindingPub)] else old(kps.keys)
  {
    h, kemPub, error := 0, bindingPub, Some(UNREACHABLE);
    TwoFailures();
    if reachable {
      var made := RunGenerateKem(kps, SUITE, bindingPub, secs, now, draw, PUBKEY_BUF);
      if made.Err? {
        error := Some(FfiStatus(made.status));
        HttpStatusOfChain(FfiStatus(made.status));
      } else {
        h, kemPub, error := made.value.0, made.value.1, None;
      }
    }
  }

  /** The KPS call as the handler sees it: a box, or the HTTP status of the failure. */
  method AskToSeal(c: Curve, kps: KeyRegistry, now: nat, h: Uuid, enc: Bytes, aad: Bytes, ephemeral: Key32,
                   reachable: bool)
    returns (box: Option<(Bytes, Bytes)>, status: int)
    ensures var sealed := DecapAndSeal(c, kps.keys, now, h, enc, aad, ephemeral, ENC_BUF, SEALED_BUF);
            && (box.Some? <==> reachable && sealed.Ok?)
            && (box.Some? ==> box.value == sealed.value)
            && (box.None? ==> status >= 400)
            && (box.None? ==> status == HttpStatus(Some(if reachable then FfiStatus(sealed.status) else UNREACHABLE)))
  {
    box, status := None, HttpStatus(Some(UNREACHABLE));
    HttpStatusOfChain(UNREACHABLE);
    if reachable {
      var sealed := SealIntoBuffers(c, kps, now, h, enc, aad, ephemeral);
      if sealed.Err? {
        status := HttpStatus(Some(FfiStatus(sealed.status)));
        HttpStatusOfChain(FfiStatus(sealed.status));
      } else {
        box := Some(sealed.value);
      }
    }
  }

  method AskToOpen(c: Curve, wsd: KeyRegistry, now: nat, b: Uuid, box: (Bytes, Bytes), aad: Bytes)
    returns (secret: Option<Bytes>, status: int)
    ensures var result := Open(c, wsd.keys, now, b, box.0, box.1, aad, SECRET_BUF);
            && (secret.Some? <==> result.Ok?)
            && (secret.Some? ==> secret.value == result.value)
            && (secret.None? ==> status == HttpStatus(Some(FfiStatus(result.status))) >= 400)
  {
    secret, status := None, 200;
    var result := OpenIntoBuffer(c, wsd, now, b, box, aad);
    if result.Err? {
      status := HttpStatus(Some(FfiStatus(result.status)));
      HttpStatusOfChain(FfiStatus(result.status));
    } else {
      secret := Some(result.value);
    }
  }

  method DestroyAnswer(ghost h: Uuid, ghost b: Uuid, kpsError: Option<Error>, wsdError: Option<Error>)
    returns (answer: int)
    ensures Answer(DesDone(h, b, kpsError, wsdError)) == Some(answer)
    ensures answer == 204 <==> kpsError.None? && wsdError.None?
    ensures answer != 204 ==> answer == First(NumberOr500(kpsError), NumberOr500(wsdError))
  {
    var error := JoinErrors(kpsError, wsdError);
    DestroyedMeansBothRemoved(DesDone(h, b, kpsError, wsdError));
    if kpsError.Some? || wsdError.Some? {
      JoinedStatus(kpsError, wsdError);
    }
    answer := if error.None? then 204 else HttpStatus(error);
  }

  /** The answers that the two halves' errors can lead to. */
  lemma DestroyTable(kpsError: Option<Error>, wsdError: Option<Error>, answer: int)
    requires kpsError.Some? ==> kpsError.value == FfiStatus(NotFound) || kpsError.value == UNREACHABLE
    requires wsdError.Some? ==> wsdError.value == FfiStatus(NotFound)
    requires answer == 204 <==> kpsError.None? && wsdError.None?
    requires answer != 204 ==> answer == First(NumberOr500(kpsError), NumberOr500(wsdError))
    ensures answer == if wsdError.Some? then 404
                      else if kpsError.None? then 204
                      else if kpsError.value == UNREACHABLE then 500
                      else 404
  {
    TwoFailures();
  }

  method ShowKeys(keys: seq<KemKeyInfo>) returns (infos: seq<KeyInfo>)
    ensures |infos| == |keys|
    ensures forall i :: 0 <= i < |keys| ==>
              infos[i] == KeyInfo(UuidText(keys[i].id), keys[i].algorithm.kem, keys[i].kemPubKey)
  {
    infos := [];
    for i := 0 to |keys|
      invariant |infos| == i
      invariant forall j :: 0 <= j < i ==>
                  infos[j] == KeyInfo(UuidText(keys[j].id), keys[j].algorithm.kem, keys[j].kemPubKey)
    {
      infos := infos + [KeyInfo(UuidText(keys[i].id), keys[i].algorithm.kem, keys[i].kemPubKey)];
    }
  }
}
