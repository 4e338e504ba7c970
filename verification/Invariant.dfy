/** What every step of the protocol keeps. */
module Invariant {
  import opened Statuses
  import opened SymbolicBytes
  import opened Handles
  import opened X25519
  import opened DecapsContext
  import opened KeyTypes
  import opened Custody
  import opened Protocol

  /** Registries hold only keys that were made, unchanged; the KPS only keys of its current boot. */
  predicate RegistriesOk(s: State) {
    && (forall h :: h in s.kps.keys ==>
          h in s.past.kems && s.past.kems[h].record == s.kps.keys[h] && s.past.kems[h].boot == s.boot)
    && (forall b :: b in s.wsd.keys ==> b in s.past.bindings && s.past.bindings[b].record == s.wsd.keys[b])
  }

  predicate BirthsOk(s: State) {
    && (forall h :: h in s.past.kems ==>
          && WellFormed(s.past.kems[h].record)
          && s.past.kems[h].record.meta.spec.KemWithBindingPub?
          && s.past.kems[h].record.meta.id == h
          && s.past.kems[h].boot <= s.boot)
    && (forall b :: b in s.past.bindings ==>
          && WellFormed(s.past.bindings[b].record)
          && s.past.bindings[b].record.meta.spec.Binding?
          && s.past.bindings[b].record.meta.id == b
          && s.past.bindings[b].owner in s.requests
          && IsGenerateOf(s.requests[s.past.bindings[b].owner], b))
  }

  predicate IsGenerateOf(q: Request, b: Uuid) {
    (q.GenBound? || q.GenFailed? || q.GenKeyed? || q.GenDone?) && q.b == b
  }

  /** Each generate's KEM key carries the public key of its own binding key, one to one. */
  predicate PairsOk(s: State) {
    && (forall h :: h in s.past.bindingOf ==>
          && h in s.past.kems
          && s.past.bindingOf[h] in s.past.bindings
          && Tied(s.past.kems[h].record, s.past.bindings[s.past.bindingOf[h]].record)
          && s.past.bindingOf[h] in s.past.kemOf
          && s.past.kemOf[s.past.bindingOf[h]] == h)
    && (forall b :: b in s.past.kemOf ==>
          s.past.kemOf[b] in s.past.bindingOf && s.past.bindingOf[s.past.kemOf[b]] == b)
  }

  /** The generate that made h for b has put it into the map at some point. */
  predicate Published(s: State, h: Uuid, b: Uuid) {
    && h in s.past.bindingOf && s.past.bindingOf[h] == b
    && b in s.past.bindings && s.past.bindings[b].owner in s.requests
    && var q := s.requests[s.past.bindings[b].owner]; q.GenDone? && q.h == h && q.b == b
  }

  predicate MappingOk(s: State) {
    forall h :: h in s.mapping ==> Published(s, h, s.mapping[h])
  }

  /** Binding key b belongs to generate r. */
  predicate Owns(s: State, r: nat, b: Uuid) {
    b in s.past.bindings && s.past.bindings[b].owner == r
  }

  predicate Made(s: State, r: nat, b: Uuid, h: Uuid, kemPub: Key32) {
    && Owns(s, r, b)
    && h in s.past.bindingOf && s.past.bindingOf[h] == b
    && h in s.past.kems
    && var spec := s.past.kems[h].record.meta.spec; spec.KemWithBindingPub? && kemPub == spec.kemPublicKey
  }

  /** What the KEM key h makes of an encapsulation. */
  function SecretOf(s: State, h: Uuid, enc: Bytes): Result<Bytes>
    requires h in s.past.kems
  {
    Decaps(s.curve, s.past.kems[h].record.privateKey, enc)
  }

  /** The box a decaps holds is its own secret sealed to its own binding key in its own context. */
  predicate SealedOk(s: State, h: Uuid, algorithm: int, enc: Bytes, b: Uuid, sealEnc: Bytes, sealedCt: Bytes) {
    && h in s.past.kems && b in s.past.bindings
    && SecretOf(s, h, enc).Ok?
    && IsPublicKey(sealEnc)
    && var pk := s.past.bindings[b].record.meta.spec.bindingPublicKey;
    sealedCt == Octets(Box(pk, sealEnc, Aad(h, algorithm), SecretOf(s, h, enc).value), SEALED_BUF)
  }

  predicate RequestOk(s: State, r: nat)
    requires r in s.requests
  {
    match s.requests[r]
    case GenBound(_, b, pk) =>
      Owns(s, r, b) && b !in s.past.kemOf && pk == s.past.bindings[b].record.meta.spec.bindingPublicKey
    case GenFailed(b, _) => Owns(s, r, b) && b !in s.past.kemOf
    case GenKeyed(b, h, pk) => Made(s, r, b, h, pk) && h !in s.mapping
    case GenDone(b, h, pk) => Made(s, r, b, h, pk)
    case DecLooked(h, _, _, b) => Published(s, h, b)
    case DecSealed(h, algorithm, enc, b, sealEnc, sealedCt) =>
      Published(s, h, b) && SealedOk(s, h, algorithm, enc, b, sealEnc, sealedCt)
    case DecDone(h, _, enc, secret) =>
      h in s.past.bindingOf && h in s.past.kems && SecretOf(s, h, enc) == Ok(secret)
    case DesLooked(h, b) => Published(s, h, b)
    case DesKps(h, b, e) => Published(s, h, b) && (e.None? ==> h !in s.kps.keys)
    case DesBoth(h, b, e, _) => Published(s, h, b) && (e.None? ==> h !in s.kps.keys) && b !in s.wsd.keys
    case DesDone(h, b, e, _) =>
      Published(s, h, b) && (e.None? ==> h !in s.kps.keys) && b !in s.wsd.keys && h !in s.mapping
    case _ => true
  }

  predicate RequestsOk(s: State) {
    forall r :: r in s.requests ==> RequestOk(s, r)
  }

  /** Request q is a destroy that removed its handle from the KPS itself. */
  predicate RemovedAtKps(q: Request) {
    (q.DesKps? || q.DesBoth? || q.DesDone?) && q.kpsError.None?
  }

  predicate RemovedOnce(s: State) {
    forall r, r' | r in s.requests && r' in s.requests && r != r' ::
      RemovedAtKps(s.requests[r]) && RemovedAtKps(s.requests[r']) ==> s.requests[r].h != s.requests[r'].h
  }

  predicate HeartOk(s: State) {
    && (s.cached.Some? ==> s.cached.value <= s.boot)
    && (!s.heart.Idle? && s.heart.next.Some? ==> s.heart.next.value <= s.boot)
    && (s.heart.Wiped? && s.heart.ok ==> forall h :: h in s.mapping ==> s.mapping[h] !in s.wsd.keys)
  }

  /** Binding key b has a reason to be in the registry: its generate is in flight or failed at the
      KEM step, or it is mapped, or a cleanup that could not destroy it unmapped it. */
  predicate AccountedFor(s: State, b: Uuid) {
    && b in s.past.bindings && s.past.bindings[b].owner in s.requests
    && var q := s.requests[s.past.bindings[b].owner];
    q.GenDone? ==> (q.h in s.mapping && s.mapping[q.h] == b) || b in s.past.leaked
  }

  predicate Accounted(s: State) {
    forall b :: b in s.wsd.keys ==> AccountedFor(s, b)
  }

  /** The invariant but for its claims about requests. */
  predicate Core(s: State) {
    RegistriesOk(s) && BirthsOk(s) && PairsOk(s) && MappingOk(s) && HeartOk(s)
  }

  predicate Inv(s: State) {
    Core(s) && RequestsOk(s) && RemovedOnce(s) && Accounted(s)
  }

  // ---------- what a step may do to requests it does not move ----------

  /** History grows; pairs and mappings appear only for the requests that move, and a finished
      generate does not move. */
  predicate Progress(s: State, s': State, moved: set<nat>) {
    && s'.curve == s.curve
    && (forall h :: h in s.past.kems ==> h in s'.past.kems && s'.past.kems[h] == s.past.kems[h])
    && (forall b :: b in s.past.bindings ==> b in s'.past.bindings && s'.past.bindings[b] == s.past.bindings[b])
    && (forall h :: h in s.past.bindingOf ==> h in s'.past.bindingOf && s'.past.bindingOf[h] == s.past.bindingOf[h])
    && (forall b :: b in s'.past.kemOf ==>
          b in s.past.kemOf || (b in s.past.bindings && s.past.bindings[b].owner in moved))
    && (forall h :: h in s'.mapping ==> h in s.mapping || Moves(s, h, moved))
    && (forall h :: h in s'.kps.keys ==> h in s.kps.keys || h !in s.past.kems)
    && (forall b :: b in s'.wsd.keys ==> b in s.wsd.keys || b !in s.past.bindings)
    && (forall r :: r in s.requests ==>
          if r in moved then !s.requests[r].GenDone? else r in s'.requests && s'.requests[r] == s.requests[r])
    && (forall r :: r in s'.requests ==> r in s.requests || r in moved)
  }

  predicate Moves(s: State, h: Uuid, moved: set<nat>) {
    && h in s.past.bindingOf && s.past.bindingOf[h] in s.past.bindings
    && s.past.bindings[s.past.bindingOf[h]].owner in moved
  }

  lemma PublishedStays(s: State, s': State, moved: set<nat>, h: Uuid, b: Uuid)
    requires Progress(s, s', moved) && Published(s, h, b)
    ensures Published(s', h, b)
  {
  }

  lemma MappingStays(s: State, s': State, moved: set<nat>)
    requires MappingOk(s) && Progress(s, s', moved) && s'.mapping == s.mapping
    ensures MappingOk(s')
  {
    forall h | h in s'.mapping
      ensures Published(s', h, s'.mapping[h])
    {
      PublishedStays(s, s', moved, h, s.mapping[h]);
    }
  }

  lemma MadeStays(s: State, s': State, moved: set<nat>, r: nat, b: Uuid, h: Uuid, kemPub: Key32)
    requires Progress(s, s', moved) && Made(s, r, b, h, kemPub)
    ensures Made(s', r, b, h, kemPub)
  {
  }

  lemma BoundStays(s: State, s': State, moved: set<nat>, r: nat, b: Uuid)
    requires Progress(s, s', moved) && r !in moved && Owns(s, r, b) && b !in s.past.kemOf
    ensures Owns(s', r, b) && b !in s'.past.kemOf && s'.past.bindings[b] == s.past.bindings[b]
  {
  }

  lemma UnmappedStays(s: State, s': State, moved: set<nat>, r: nat, b: Uuid, h: Uuid, kemPub: Key32)
    requires Progress(s, s', moved) && r !in moved && Made(s, r, b, h, kemPub) && h !in s.mapping
    ensures h !in s'.mapping
  {
  }

  lemma SealedStays(s: State, s': State, moved: set<nat>, h: Uuid, algorithm: int, enc: Bytes, b: Uuid, sealEnc: Bytes,
                    sealedCt: Bytes)
    requires Progress(s, s', moved) && SealedOk(s, h, algorithm, enc, b, sealEnc, sealedCt)
    ensures SealedOk(s', h, algorithm, enc, b, sealEnc, sealedCt)
  {
  }

  /** What a destroy has removed stays removed. */
  lemma RemovedStays(s: State, s': State, moved: set<nat>, h: Uuid, b: Uuid)
    requires PairsOk(s) && Progress(s, s', moved) && Published(s, h, b)
    ensures h !in s.kps.keys ==> h !in s'.kps.keys
    ensures b !in s.wsd.keys ==> b !in s'.wsd.keys
    ensures h !in s.mapping ==> h !in s'.mapping
  {
  }

  lemma RequestStays(s: State, s': State, moved: set<nat>, r: nat)
    requires PairsOk(s) && Progress(s, s', moved) && r in s.requests && r !in moved && RequestOk(s, r)
    ensures RequestOk(s', r)
  {
    match s.requests[r]
    case GenBound(_, b, _) => BoundStays(s, s', moved, r, b);
    case GenFailed(b, _) => BoundStays(s, s', moved, r, b);
    case GenKeyed(b, h, pk) =>
      MadeStays(s, s', moved, r, b, h, pk);
      UnmappedStays(s, s', moved, r, b, h, pk);
    case GenDone(b, h, pk) => MadeStays(s, s', moved, r, b, h, pk);
    case DecLooked(h, _, _, b) => PublishedStays(s, s', moved, h, b);
    case DecSealed(h, algorithm, enc, b, sealEnc, sealedCt) =>
      PublishedStays(s, s', moved, h, b);
      SealedStays(s, s', moved, h, algorithm, enc, b, sealEnc, sealedCt);
    case DesLooked(h, b) => PublishedStays(s, s', moved, h, b);
    case DesKps(h, b, _) => PublishedStays(s, s', moved, h, b); RemovedStays(s, s', moved, h, b);
    case DesBoth(h, b, _, _) => PublishedStays(s, s', moved, h, b); RemovedStays(s, s', moved, h, b);
    case DesDone(h, b, _, _) => PublishedStays(s, s', moved, h, b); RemovedStays(s, s', moved, h, b);
    case _ =>
  }

  /** A step that moves only request r, and leaves it in order, leaves all requests in order. */
  lemma RequestsStay(s: State, s': State, r: nat)
    requires PairsOk(s) && RequestsOk(s) && Progress(s, s', {r})
    requires r in s'.requests && RequestOk(s', r)
    ensures RequestsOk(s')
  {
    forall r' | r' in s'.requests
      ensures RequestOk(s', r')
    {
      if r' != r {
        RequestStays(s, s', {r}, r');
      }
    }
  }

  lemma AllRequestsStay(s: State, s': State)
    requires PairsOk(s) && RequestsOk(s) && Progress(s, s', {})
    ensures RequestsOk(s')
  {
    forall r' | r' in s'.requests
      ensures RequestOk(s', r')
    {
      RequestStays(s, s', {}, r');
    }
  }

  /** If request r has removed a handle by the end of the step, it had before, or found it there. */
  predicate RemovesOnce(s: State, s': State, r: nat) {
    && r in s'.requests
    && var q := s'.requests[r];
    RemovedAtKps(q) ==>
      q.h in s.kps.keys || (r in s.requests && RemovedAtKps(s.requests[r]) && s.requests[r].h == q.h)
  }

  /** Removal stays unique if r either had already removed its handle or finds it still there. */
  lemma RemovedOnceStays(s: State, s': State, r: nat)
    requires RequestsOk(s) && RemovedOnce(s) && Progress(s, s', {r})
    requires RemovesOnce(s, s', r)
    ensures RemovedOnce(s')
  {
    forall r' | r' in s.requests && r' != r && RemovedAtKps(s.requests[r'])
      ensures RemovedAtKps(s'.requests[r]) ==> s'.requests[r].h != s.requests[r'].h
    {
      assert RequestOk(s, r');
    }
  }

  /** A step of request r that leaves in order everything it touches. */
  predicate WellMoved(s: State, s': State, r: nat) {
    && Core(s') && Accounted(s') && Progress(s, s', {r})
    && RemovesOnce(s, s', r) && RequestOk(s', r)
  }

  lemma WellMovedKeeps(s: State, s': State, r: nat)
    requires Inv(s) && WellMoved(s, s', r)
    ensures Inv(s')
  {
    RequestsStay(s, s', r);
    RemovedOnceStays(s, s', r);
  }

  // ---------- generate ----------

  lemma GenBindKeeps(s: State, r: nat, secs: nat, draw: Draw)
    requires Inv(s) && Enabled(s, GenBind(r, secs, draw))
    ensures Inv(GenBindStep(s, r, secs, draw))
  {
    GenBindWellMoved(s, r, secs, draw);
    WellMovedKeeps(s, GenBindStep(s, r, secs, draw), r);
  }

  lemma GenBindWellMoved(s: State, r: nat, secs: nat, draw: Draw)
    requires Core(s) && Accounted(s) && Enabled(s, GenBind(r, secs, draw))
    ensures WellMoved(s, GenBindStep(s, r, secs, draw), r)
  {
    GenBindCore(s, r, secs, draw);
    GenBindProgress(s, r, secs, draw);
    GenBindLocal(s, r, secs, draw);
    GenBindAccounted(s, r, secs, draw);
    GenBindRemoves(s, r, secs, draw);
  }

  lemma GenBindRemoves(s: State, r: nat, secs: nat, draw: Draw)
    requires Enabled(s, GenBind(r, secs, draw))
    ensures RemovesOnce(s, GenBindStep(s, r, secs, draw), r)
  {
  }

  lemma GenBindCore(s: State, r: nat, secs: nat, draw: Draw)
    requires Core(s) && Enabled(s, GenBind(r, secs, draw))
    ensures Core(GenBindStep(s, r, secs, draw))
  {
    GenBindRegistries(s, r, secs, draw);
    GenBindPairs(s, r, secs, draw);
    GenBindMapping(s, r, secs, draw);
  }

  lemma GenBindRegistries(s: State, r: nat, secs: nat, draw: Draw)
    requires Core(s) && Enabled(s, GenBind(r, secs, draw))
    ensures var s' := GenBindStep(s, r, secs, draw); RegistriesOk(s') && BirthsOk(s') && HeartOk(s')
  {
  }

  lemma GenBindPairs(s: State, r: nat, secs: nat, draw: Draw)
    requires PairsOk(s) && Enabled(s, GenBind(r, secs, draw))
    ensures PairsOk(GenBindStep(s, r, secs, draw))
  {
  }

  lemma GenBindMapping(s: State, r: nat, secs: nat, draw: Draw)
    requires MappingOk(s) && Enabled(s, GenBind(r, secs, draw))
    ensures MappingOk(GenBindStep(s, r, secs, draw))
  {
  }

  lemma GenBindProgress(s: State, r: nat, secs: nat, draw: Draw)
    requires Enabled(s, GenBind(r, secs, draw))
    ensures Progress(s, GenBindStep(s, r, secs, draw), {r})
  {
  }

  lemma GenBindLocal(s: State, r: nat, secs: nat, draw: Draw)
    requires Core(s) && Enabled(s, GenBind(r, secs, draw))
    ensures RequestOk(GenBindStep(s, r, secs, draw), r)
  {
  }

  lemma GenBindAccounted(s: State, r: nat, secs: nat, draw: Draw)
    requires Core(s) && Accounted(s) && Enabled(s, GenBind(r, secs, draw))
    ensures Accounted(GenBindStep(s, r, secs, draw))
  {
  }

  lemma GenKemKeeps(s: State, r: nat, reachable: bool, draw: Draw)
    requires Inv(s) && Enabled(s, GenKem(r, reachable, draw))
    ensures Inv(GenKemStep(s, r, reachable, draw))
  {
    assert RequestOk(s, r);
    GenKemWellMoved(s, r, reachable, draw);
    WellMovedKeeps(s, GenKemStep(s, r, reachable, draw), r);
  }

  lemma GenKemWellMoved(s: State, r: nat, reachable: bool, draw: Draw)
    requires Core(s) && Accounted(s) && Enabled(s, GenKem(r, reachable, draw)) && RequestOk(s, r)
    ensures WellMoved(s, GenKemStep(s, r, reachable, draw), r)
  {
    GenKemCore(s, r, reachable, draw);
    GenKemProgress(s, r, reachable, draw);
    GenKemLocal(s, r, reachable, draw);
    GenKemAccounted(s, r, reachable, draw);
    GenKemRemoves(s, r, reachable, draw);
  }

  lemma GenKemRemoves(s: State, r: nat, reachable: bool, draw: Draw)
    requires Enabled(s, GenKem(r, reachable, draw))
    ensures RemovesOnce(s, GenKemStep(s, r, reachable, draw), r)
  {
  }

  lemma GenKemCore(s: State, r: nat, reachable: bool, draw: Draw)
    requires Core(s) && Enabled(s, GenKem(r, reachable, draw)) && RequestOk(s, r)
    ensures Core(GenKemStep(s, r, reachable, draw))
  {
    GenKemRegistries(s, r, reachable, draw);
    GenKemBirths(s, r, reachable, draw);
    GenKemPairs(s, r, reachable, draw);
    GenKemMapping(s, r, reachable, draw);
  }

  lemma GenKemRegistries(s: State, r: nat, reachable: bool, draw: Draw)
    requires RegistriesOk(s) && HeartOk(s) && Enabled(s, GenKem(r, reachable, draw))
    ensures var s' := GenKemStep(s, r, reachable, draw); RegistriesOk(s') && HeartOk(s')
  {
  }

  lemma GenKemBirths(s: State, r: nat, reachable: bool, draw: Draw)
    requires BirthsOk(s) && Enabled(s, GenKem(r, reachable, draw)) && RequestOk(s, r)
    ensures BirthsOk(GenKemStep(s, r, reachable, draw))
  {
  }

  lemma GenKemPairs(s: State, r: nat, reachable: bool, draw: Draw)
    requires BirthsOk(s) && PairsOk(s) && Enabled(s, GenKem(r, reachable, draw)) && RequestOk(s, r)
    ensures PairsOk(GenKemStep(s, r, reachable, draw))
  {
  }

  lemma GenKemMapping(s: State, r: nat, reachable: bool, draw: Draw)
    requires PairsOk(s) && MappingOk(s) && Enabled(s, GenKem(r, reachable, draw)) && RequestOk(s, r)
    ensures MappingOk(GenKemStep(s, r, reachable, draw))
  {
    GenKemProgress(s, r, reachable, draw);
    MappingStays(s, GenKemStep(s, r, reachable, draw), {r});
  }

  lemma GenKemProgress(s: State, r: nat, reachable: bool, draw: Draw)
    requires PairsOk(s) && Enabled(s, GenKem(r, reachable, draw)) && RequestOk(s, r)
    ensures Progress(s, GenKemStep(s, r, reachable, draw), {r})
  {
  }

  lemma GenKemLocal(s: State, r: nat, reachable: bool, draw: Draw)
    requires BirthsOk(s) && MappingOk(s) && PairsOk(s) && Enabled(s, GenKem(r, reachable, draw)) && RequestOk(s, r)
    ensures RequestOk(GenKemStep(s, r, reachable, draw), r)
  {
  }

  lemma GenKemAccounted(s: State, r: nat, reachable: bool, draw: Draw)
    requires BirthsOk(s) && MappingOk(s) && PairsOk(s) && Accounted(s)
    requires Enabled(s, GenKem(r, reachable, draw)) && RequestOk(s, r)
    ensures Accounted(GenKemStep(s, r, reachable, draw))
  {
  }

  lemma GenMapKeeps(s: State, r: nat)
    requires Inv(s) && Enabled(s, GenMap(r))
    ensures Inv(GenMapStep(s, r))
  {
    assert RequestOk(s, r);
    GenMapWellMoved(s, r);
    WellMovedKeeps(s, GenMapStep(s, r), r);
  }

  lemma GenMapWellMoved(s: State, r: nat)
    requires Core(s) && Accounted(s) && Enabled(s, GenMap(r)) && RequestOk(s, r)
    ensures WellMoved(s, GenMapStep(s, r), r)
  {
    GenMapCore(s, r);
    GenMapProgress(s, r);
    GenMapLocal(s, r);
    GenMapAccounted(s, r);
    GenMapRemoves(s, r);
  }

  lemma GenMapRemoves(s: State, r: nat)
    requires Enabled(s, GenMap(r))
    ensures RemovesOnce(s, GenMapStep(s, r), r)
  {
  }

  lemma GenMapCore(s: State, r: nat)
    requires Core(s) && Enabled(s, GenMap(r)) && RequestOk(s, r)
    ensures Core(GenMapStep(s, r))
  {
    GenMapRegistries(s, r);
    GenMapPairs(s, r);
    GenMapMapping(s, r);
  }

  lemma GenMapRegistries(s: State, r: nat)
    requires RegistriesOk(s) && BirthsOk(s) && HeartOk(s) && Enabled(s, GenMap(r))
    ensures var s' := GenMapStep(s, r); RegistriesOk(s') && BirthsOk(s') && HeartOk(s')
  {
  }

  lemma GenMapPairs(s: State, r: nat)
    requires PairsOk(s) && Enabled(s, GenMap(r))
    ensures PairsOk(GenMapStep(s, r))
  {
  }

  lemma GenMapMapping(s: State, r: nat)
    requires MappingOk(s) && BirthsOk(s) && Enabled(s, GenMap(r)) && RequestOk(s, r)
    ensures MappingOk(GenMapStep(s, r))
  {
  }

  lemma GenMapProgress(s: State, r: nat)
    requires Enabled(s, GenMap(r)) && RequestOk(s, r)
    ensures Progress(s, GenMapStep(s, r), {r})
  {
  }

  lemma GenMapLocal(s: State, r: nat)
    requires BirthsOk(s) && PairsOk(s) && Enabled(s, GenMap(r)) && RequestOk(s, r)
    ensures RequestOk(GenMapStep(s, r), r)
  {
  }

  lemma GenMapAccounted(s: State, r: nat)
    requires BirthsOk(s) && PairsOk(s) && Accounted(s) && Enabled(s, GenMap(r)) && RequestOk(s, r)
    ensures Accounted(GenMapStep(s, r))
  {
  }

  // ---------- decaps ----------

  /** s' is s with a request noted that is not, and was not, a generate. */
  predicate Noted(s: State, s': State, r: nat) {
    && r in s'.requests && s' == Note(s, r, s'.requests[r])
    && (r in s.requests ==> s.requests[r].DecLooked? || s.requests[r].DecSealed?)
    && forall b :: b in s.past.bindings ==> s.past.bindings[b].owner != r
  }

  lemma NoteCore(s: State, s': State, r: nat)
    requires Core(s) && Noted(s, s', r)
    ensures Core(s')
  {
    NoteRegistries(s, s', r);
    NoteProgress(s, s', r);
    MappingStays(s, s', {r});
  }

  lemma NoteRegistries(s: State, s': State, r: nat)
    requires RegistriesOk(s) && BirthsOk(s) && PairsOk(s) && HeartOk(s) && Noted(s, s', r)
    ensures RegistriesOk(s') && BirthsOk(s') && PairsOk(s') && HeartOk(s')
  {
  }

  lemma NoteProgress(s: State, s': State, r: nat)
    requires Noted(s, s', r)
    ensures Progress(s, s', {r})
  {
  }

  lemma NoteAccounted(s: State, s': State, r: nat)
    requires Accounted(s) && Noted(s, s', r)
    ensures Accounted(s')
  {
  }

  /** The request noted is in order and is not a destroy that removed a key. */
  predicate Settled(s: State, s': State, r: nat) {
    Noted(s, s', r) && RequestOk(s', r) && !RemovedAtKps(s'.requests[r])
  }

  lemma NoteKeeps(s: State, s': State, r: nat)
    requires Inv(s) && Settled(s, s', r)
    ensures Inv(s')
  {
    NoteCore(s, s', r);
    NoteProgress(s, s', r);
    NoteAccounted(s, s', r);
    RequestsStay(s, s', r);
    RemovedOnceStays(s, s', r);
  }

  lemma DecLookKeeps(s: State, r: nat, h: Uuid, algorithm: int, enc: Bytes)
    requires Inv(s) && Enabled(s, DecLook(r, h, algorithm, enc))
    ensures Inv(DecLookStep(s, r, h, algorithm, enc))
  {
    DecLookSettles(s, r, h, algorithm, enc);
    NoteKeeps(s, DecLookStep(s, r, h, algorithm, enc), r);
  }

  lemma DecLookSettles(s: State, r: nat, h: Uuid, algorithm: int, enc: Bytes)
    requires BirthsOk(s) && MappingOk(s) && r !in s.requests
    ensures Settled(s, DecLookStep(s, r, h, algorithm, enc), r)
  {
    LookedUp(s, DecLookStep(s, r, h, algorithm, enc), r, h);
  }

  /** A mapping that a handler has just read is a published one. */
  lemma LookedUp(s: State, s': State, r: nat, h: Uuid)
    requires MappingOk(s) && r !in s.requests && r in s'.requests && s' == Note(s, r, s'.requests[r])
    ensures h in s.mapping ==> Published(s', h, s.mapping[h])
  {
  }

  lemma DecSealKeeps(s: State, r: nat, reachable: bool, ephemeral: Key32)
    requires Inv(s) && Enabled(s, DecSeal(r, reachable, ephemeral))
    ensures Inv(DecSealStep(s, r, reachable, ephemeral))
  {
    assert RequestOk(s, r);
    DecSealSettles(s, r, reachable, ephemeral);
    NoteKeeps(s, DecSealStep(s, r, reachable, ephemeral), r);
  }

  lemma DecSealSettles(s: State, r: nat, reachable: bool, ephemeral: Key32)
    requires RegistriesOk(s) && BirthsOk(s) && PairsOk(s)
    requires Enabled(s, DecSeal(r, reachable, ephemeral)) && RequestOk(s, r)
    ensures Settled(s, DecSealStep(s, r, reachable, ephemeral), r)
  {
    DecSealNoted(s, r, reachable, ephemeral);
    DecSealRequest(s, r, reachable, ephemeral);
  }

  lemma DecSealNoted(s: State, r: nat, reachable: bool, ephemeral: Key32)
    requires BirthsOk(s) && Enabled(s, DecSeal(r, reachable, ephemeral))
    ensures var s' := DecSealStep(s, r, reachable, ephemeral);
            Noted(s, s', r) && (s'.requests[r].DecSealed? || s'.requests[r].DecFailed?)
  {
  }

  lemma DecSealRequest(s: State, r: nat, reachable: bool, ephemeral: Key32)
    requires RegistriesOk(s) && PairsOk(s) && Enabled(s, DecSeal(r, reachable, ephemeral)) && RequestOk(s, r)
    ensures RequestOk(DecSealStep(s, r, reachable, ephemeral), r)
  {
    var s', q := DecSealStep(s, r, reachable, ephemeral), s.requests[r];
    if s'.requests[r].DecSealed? {
      ResealBoxesSecret(s.curve, s.kps.keys[q.h], q.enc, Aad(q.h, q.algorithm), ephemeral, ENC_BUF, SEALED_BUF);
      assert Tied(s.past.kems[q.h].record, s.past.bindings[q.b].record);
      assert SealedOk(s', q.h, q.algorithm, q.enc, q.b, s'.requests[r].sealEnc, s'.requests[r].sealedCt);
    }
  }

  lemma DecOpenKeeps(s: State, r: nat)
    requires Inv(s) && Enabled(s, DecOpen(r))
    ensures Inv(DecOpenStep(s, r))
  {
    assert RequestOk(s, r);
    DecOpenSettles(s, r);
    NoteKeeps(s, DecOpenStep(s, r), r);
  }

  lemma DecOpenSettles(s: State, r: nat)
    requires RegistriesOk(s) && BirthsOk(s) && PairsOk(s) && Enabled(s, DecOpen(r)) && RequestOk(s, r)
    ensures Settled(s, DecOpenStep(s, r), r)
  {
    DecOpenNoted(s, r);
    DecOpenRequest(s, r);
    var s' := DecOpenStep(s, r);
    assert Noted(s, s', r) && RequestOk(s', r);
  }

  lemma DecOpenNoted(s: State, r: nat)
    requires BirthsOk(s) && Enabled(s, DecOpen(r))
    ensures var s' := DecOpenStep(s, r); Noted(s, s', r) && (s'.requests[r].DecDone? || s'.requests[r].DecFailed?)
  {
  }

  lemma DecOpenRequest(s: State, r: nat)
    requires RegistriesOk(s) && BirthsOk(s) && Enabled(s, DecOpen(r)) && RequestOk(s, r)
    ensures RequestOk(DecOpenStep(s, r), r)
  {
    var q := s.requests[r];
    HeldBoxOpens(s, q.h, q.algorithm, q.enc, q.b, q.sealEnc, q.sealedCt);
  }

  lemma HeldBoxOpens(s: State, h: Uuid, algorithm: int, enc: Bytes, b: Uuid, sealEnc: Bytes, sealedCt: Bytes)
    requires RegistriesOk(s) && BirthsOk(s) && SealedOk(s, h, algorithm, enc, b, sealEnc, sealedCt)
    ensures Open(s.curve, s.wsd.keys, s.wsd.clock, b, sealEnc, sealedCt, Aad(h, algorithm), SECRET_BUF) ==
            if Live(s.wsd.keys, s.wsd.clock, b) then Ok(SecretOf(s, h, enc).value) else Err(NotFound)
  {
    if Live(s.wsd.keys, s.wsd.clock, b) {
      BoxOpens(s.curve, s.wsd.keys[b], sealEnc, Aad(h, algorithm), SecretOf(s, h, enc).value);
    }
  }

  // ---------- destroy ----------

  lemma DesLookKeeps(s: State, r: nat, h: Uuid)
    requires Inv(s) && Enabled(s, DesLook(r, h))
    ensures Inv(DesLookStep(s, r, h))
  {
    DesLookSettles(s, r, h);
    NoteKeeps(s, DesLookStep(s, r, h), r);
  }

  lemma DesLookSettles(s: State, r: nat, h: Uuid)
    requires BirthsOk(s) && MappingOk(s) && r !in s.requests
    ensures Settled(s, DesLookStep(s, r, h), r)
  {
    LookedUp(s, DesLookStep(s, r, h), r, h);
  }

  lemma DesAtKpsKeeps(s: State, r: nat, reachable: bool)
    requires Inv(s) && Enabled(s, DesAtKps(r, reachable))
    ensures Inv(DesAtKpsStep(s, r, reachable))
  {
    assert RequestOk(s, r);
    DesAtKpsWellMoved(s, r, reachable);
    WellMovedKeeps(s, DesAtKpsStep(s, r, reachable), r);
  }

  lemma DesAtKpsWellMoved(s: State, r: nat, reachable: bool)
    requires Core(s) && Accounted(s) && Enabled(s, DesAtKps(r, reachable)) && RequestOk(s, r)
    ensures WellMoved(s, DesAtKpsStep(s, r, reachable), r)
  {
    DesAtKpsCore(s, r, reachable);
    DesAtKpsProgress(s, r, reachable);
    DesAtKpsLocal(s, r, reachable);
    DesAtKpsAccounted(s, r, reachable);
    DesAtKpsRemoves(s, r, reachable);
  }

  lemma DesAtKpsRemoves(s: State, r: nat, reachable: bool)
    requires Enabled(s, DesAtKps(r, reachable))
    ensures RemovesOnce(s, DesAtKpsStep(s, r, reachable), r)
  {
  }

  lemma DesAtKpsCore(s: State, r: nat, reachable: bool)
    requires Core(s) && Enabled(s, DesAtKps(r, reachable)) && RequestOk(s, r)
    ensures Core(DesAtKpsStep(s, r, reachable))
  {
    DesAtKpsRegistries(s, r, reachable);
    DesAtKpsPairs(s, r, reachable);
    DesAtKpsMapping(s, r, reachable);
  }

  lemma DesAtKpsRegistries(s: State, r: nat, reachable: bool)
    requires RegistriesOk(s) && BirthsOk(s) && HeartOk(s) && Enabled(s, DesAtKps(r, reachable))
    ensures var s' := DesAtKpsStep(s, r, reachable); RegistriesOk(s') && BirthsOk(s') && HeartOk(s')
  {
  }

  lemma DesAtKpsPairs(s: State, r: nat, reachable: bool)
    requires PairsOk(s) && Enabled(s, DesAtKps(r, reachable))
    ensures PairsOk(DesAtKpsStep(s, r, reachable))
  {
  }

  lemma DesAtKpsMapping(s: State, r: nat, reachable: bool)
    requires MappingOk(s) && Enabled(s, DesAtKps(r, reachable))
    ensures MappingOk(DesAtKpsStep(s, r, reachable))
  {
  }

  lemma DesAtKpsProgress(s: State, r: nat, reachable: bool)
    requires Enabled(s, DesAtKps(r, reachable)) && RequestOk(s, r)
    ensures Progress(s, DesAtKpsStep(s, r, reachable), {r})
  {
  }

  lemma DesAtKpsLocal(s: State, r: nat, reachable: bool)
    requires BirthsOk(s) && Enabled(s, DesAtKps(r, reachable)) && RequestOk(s, r)
    ensures RequestOk(DesAtKpsStep(s, r, reachable), r)
  {
  }

  lemma DesAtKpsAccounted(s: State, r: nat, reachable: bool)
    requires BirthsOk(s) && Accounted(s) && Enabled(s, DesAtKps(r, reachable)) && RequestOk(s, r)
    ensures Accounted(DesAtKpsStep(s, r, reachable))
  {
  }

  lemma DesAtWsdKeeps(s: State, r: nat)
    requires Inv(s) && Enabled(s, DesAtWsd(r))
    ensures Inv(DesAtWsdStep(s, r))
  {
    assert RequestOk(s, r);
    DesAtWsdWellMoved(s, r);
    WellMovedKeeps(s, DesAtWsdStep(s, r), r);
  }

  lemma DesAtWsdWellMoved(s: State, r: nat)
    requires Core(s) && Accounted(s) && Enabled(s, DesAtWsd(r)) && RequestOk(s, r)
    ensures WellMoved(s, DesAtWsdStep(s, r), r)
  {
    DesAtWsdCore(s, r);
    DesAtWsdProgress(s, r);
    DesAtWsdLocal(s, r);
    DesAtWsdAccounted(s, r);
    DesAtWsdRemoves(s, r);
  }

  lemma DesAtWsdRemoves(s: State, r: nat)
    requires Enabled(s, DesAtWsd(r))
    ensures RemovesOnce(s, DesAtWsdStep(s, r), r)
  {
  }

  lemma DesAtWsdCore(s: State, r: nat)
    requires Core(s) && Enabled(s, DesAtWsd(r)) && RequestOk(s, r)
    ensures Core(DesAtWsdStep(s, r))
  {
    DesAtWsdRegistries(s, r);
    DesAtWsdPairs(s, r);
  }

  lemma DesAtWsdRegistries(s: State, r: nat)
    requires RegistriesOk(s) && BirthsOk(s) && HeartOk(s) && Enabled(s, DesAtWsd(r))
    ensures var s' := DesAtWsdStep(s, r); RegistriesOk(s') && BirthsOk(s') && HeartOk(s')
  {
  }

  lemma DesAtWsdPairs(s: State, r: nat)
    requires PairsOk(s) && MappingOk(s) && Enabled(s, DesAtWsd(r))
    ensures var s' := DesAtWsdStep(s, r); PairsOk(s') && MappingOk(s')
  {
  }

  lemma DesAtWsdProgress(s: State, r: nat)
    requires Enabled(s, DesAtWsd(r)) && RequestOk(s, r)
    ensures Progress(s, DesAtWsdStep(s, r), {r})
  {
  }

  lemma DesAtWsdLocal(s: State, r: nat)
    requires BirthsOk(s) && Enabled(s, DesAtWsd(r)) && RequestOk(s, r)
    ensures RequestOk(DesAtWsdStep(s, r), r)
  {
  }

  lemma DesAtWsdAccounted(s: State, r: nat)
    requires BirthsOk(s) && Accounted(s) && Enabled(s, DesAtWsd(r)) && RequestOk(s, r)
    ensures Accounted(DesAtWsdStep(s, r))
  {
  }

  lemma DesUnmapKeeps(s: State, r: nat)
    requires Inv(s) && Enabled(s, DesUnmap(r))
    ensures Inv(DesUnmapStep(s, r))
  {
    assert RequestOk(s, r);
    DesUnmapWellMoved(s, r);
    WellMovedKeeps(s, DesUnmapStep(s, r), r);
  }

  lemma DesUnmapWellMoved(s: State, r: nat)
    requires Core(s) && Accounted(s) && Enabled(s, DesUnmap(r)) && RequestOk(s, r)
    ensures WellMoved(s, DesUnmapStep(s, r), r)
  {
    DesUnmapCore(s, r);
    DesUnmapProgress(s, r);
    DesUnmapLocal(s, r);
    DesUnmapAccounted(s, r);
    DesUnmapRemoves(s, r);
  }

  lemma DesUnmapRemoves(s: State, r: nat)
    requires Enabled(s, DesUnmap(r))
    ensures RemovesOnce(s, DesUnmapStep(s, r), r)
  {
  }

  lemma DesUnmapCore(s: State, r: nat)
    requires Core(s) && Enabled(s, DesUnmap(r)) && RequestOk(s, r)
    ensures Core(DesUnmapStep(s, r))
  {
    DesUnmapRegistries(s, r);
    DesUnmapPairs(s, r);
  }

  lemma DesUnmapRegistries(s: State, r: nat)
    requires RegistriesOk(s) && BirthsOk(s) && HeartOk(s) && Enabled(s, DesUnmap(r))
    ensures var s' := DesUnmapStep(s, r); RegistriesOk(s') && BirthsOk(s') && HeartOk(s')
  {
  }

  lemma DesUnmapPairs(s: State, r: nat)
    requires PairsOk(s) && MappingOk(s) && Enabled(s, DesUnmap(r))
    ensures var s' := DesUnmapStep(s, r); PairsOk(s') && MappingOk(s')
  {
  }

  lemma DesUnmapProgress(s: State, r: nat)
    requires Enabled(s, DesUnmap(r)) && RequestOk(s, r)
    ensures Progress(s, DesUnmapStep(s, r), {r})
  {
  }

  lemma DesUnmapLocal(s: State, r: nat)
    requires BirthsOk(s) && MappingOk(s) && Enabled(s, DesUnmap(r)) && RequestOk(s, r)
    ensures RequestOk(DesUnmapStep(s, r), r)
  {
  }

  lemma DesUnmapAccounted(s: State, r: nat)
    requires BirthsOk(s) && MappingOk(s) && Accounted(s) && Enabled(s, DesUnmap(r)) && RequestOk(s, r)
    ensures Accounted(DesUnmapStep(s, r))
  {
  }

  // ---------- heartbeat and environment ----------

  predicate Background(e: Event) {
    || e.BeatToken? || e.BeatGiveUp? || e.CleanLock? || e.CleanWipe? || e.CleanReset? || e.KpsTick? || e.WsdTick?
    || e.KpsSweep? || e.WsdSweep? || e.KpsReboot? || e.StrayKem? || e.StrayDestroy?
  }

  lemma BackgroundKeeps(s: State, e: Event)
    requires Inv(s) && Enabled(s, e) && Background(e)
    ensures Inv(Apply(s, e))
  {
    BackgroundCore(s, e);
    BackgroundProgress(s, e);
    BackgroundAccounted(s, e);
    NothingMovedKeeps(s, Apply(s, e));
  }

  lemma NothingMovedKeeps(s: State, s': State)
    requires Inv(s) && Core(s') && Progress(s, s', {}) && Accounted(s')
    ensures Inv(s')
  {
    AllRequestsStay(s, s');
  }

  /** A step that moves no request, adds to nothing and forgets no birth; a KPS with keys is the same one. */
  predicate OnlyLoses(s: State, s': State) {
    && s'.curve == s.curve && s'.requests == s.requests
    && s'.past.(stale := s.past.stale, leaked := s.past.leaked) == s.past
    && (forall h :: h in s'.mapping ==> h in s.mapping && s'.mapping[h] == s.mapping[h])
    && (forall h :: h in s'.kps.keys ==> h in s.kps.keys && s'.kps.keys[h] == s.kps.keys[h])
    && (forall b :: b in s'.wsd.keys ==> b in s.wsd.keys && s'.wsd.keys[b] == s.wsd.keys[b])
    && s.boot <= s'.boot && (s'.kps.keys == map[] || s'.boot == s.boot)
  }

  lemma BackgroundLoses(s: State, e: Event)
    requires Enabled(s, e) && Background(e) && !e.StrayKem?
    ensures OnlyLoses(s, Apply(s, e))
  {
  }

  lemma LosingKeepsCore(s: State, s': State)
    requires Core(s) && OnlyLoses(s, s') && HeartOk(s')
    ensures Core(s')
  {
    LosingKeepsRegistries(s, s');
    LosingKeepsMapping(s, s');
  }

  lemma LosingKeepsRegistries(s: State, s': State)
    requires RegistriesOk(s) && BirthsOk(s) && OnlyLoses(s, s')
    ensures RegistriesOk(s') && BirthsOk(s')
  {
  }

  lemma LosingKeepsMapping(s: State, s': State)
    requires PairsOk(s) && MappingOk(s) && OnlyLoses(s, s')
    ensures PairsOk(s') && MappingOk(s')
  {
  }

  lemma LosingProgress(s: State, s': State)
    requires OnlyLoses(s, s')
    ensures Progress(s, s', {})
  {
  }

  lemma BackgroundHeart(s: State, e: Event)
    requires HeartOk(s) && Enabled(s, e) && Background(e) && !e.StrayKem?
    ensures HeartOk(Apply(s, e))
  {
  }

  lemma BackgroundCore(s: State, e: Event)
    requires Core(s) && Enabled(s, e) && Background(e)
    ensures Core(Apply(s, e))
  {
    if e.StrayKem? {
      StrayKemCore(s, e.bindingPub, e.secs, e.draw);
    } else {
      BackgroundLoses(s, e);
      BackgroundHeart(s, e);
      LosingKeepsCore(s, Apply(s, e));
    }
  }

  lemma StrayKemCore(s: State, bindingPub: Bytes, secs: nat, draw: Draw)
    requires Core(s) && Unused(s, draw.id)
    ensures Core(StrayKemStep(s, bindingPub, secs, draw))
  {
  }

  lemma BackgroundProgress(s: State, e: Event)
    requires Enabled(s, e) && Background(e)
    ensures Progress(s, Apply(s, e), {})
  {
    if e.StrayKem? {
      StrayKemProgress(s, e.bindingPub, e.secs, e.draw);
    } else {
      BackgroundLoses(s, e);
      LosingProgress(s, Apply(s, e));
    }
  }

  lemma StrayKemProgress(s: State, bindingPub: Bytes, secs: nat, draw: Draw)
    requires Unused(s, draw.id)
    ensures Progress(s, StrayKemStep(s, bindingPub, secs, draw), {})
  {
  }

  lemma BackgroundAccounted(s: State, e: Event)
    requires Core(s) && Accounted(s) && Enabled(s, e) && Background(e)
    ensures Accounted(Apply(s, e))
  {
  }

  // ---------- every step, every run ----------

  lemma GenerateKeeps(s: State, e: Event)
    requires Inv(s) && Enabled(s, e) && (e.GenBind? || e.GenKem? || e.GenMap?)
    ensures Inv(Apply(s, e))
  {
    match e
    case GenBind(r, secs, draw) => GenBindKeeps(s, r, secs, draw);
    case GenKem(r, reachable, draw) => GenKemKeeps(s, r, reachable, draw);
    case GenMap(r) => GenMapKeeps(s, r);
  }

  lemma DecapsKeeps(s: State, e: Event)
    requires Inv(s) && Enabled(s, e) && (e.DecLook? || e.DecSeal? || e.DecOpen?)
    ensures Inv(Apply(s, e))
  {
    match e
    case DecLook(r, h, algorithm, enc) => DecLookKeeps(s, r, h, algorithm, enc);
    case DecSeal(r, reachable, ephemeral) => DecSealKeeps(s, r, reachable, ephemeral);
    case DecOpen(r) => DecOpenKeeps(s, r);
  }

  lemma DestroyKeeps(s: State, e: Event)
    requires Inv(s) && Enabled(s, e) && (e.DesLook? || e.DesAtKps? || e.DesAtWsd? || e.DesUnmap?)
    ensures Inv(Apply(s, e))
  {
    match e
    case DesLook(r, h) => DesLookKeeps(s, r, h);
    case DesAtKps(r, reachable) => DesAtKpsKeeps(s, r, reachable);
    case DesAtWsd(r) => DesAtWsdKeeps(s, r);
    case DesUnmap(r) => DesUnmapKeeps(s, r);
  }

  lemma StepKeeps(s: State, e: Event)
    requires Inv(s) && Enabled(s, e)
    ensures Inv(Apply(s, e))
  {
    if Background(e) {
      BackgroundKeeps(s, e);
    } else if e.GenBind? || e.GenKem? || e.GenMap? {
      GenerateKeeps(s, e);
    } else if e.DecLook? || e.DecSeal? || e.DecOpen? {
      DecapsKeeps(s, e);
    } else {
      DestroyKeeps(s, e);
    }
  }

  lemma {:induction false} RunKeeps(s: State, events: seq<Event>)
    requires Inv(s) && CanRun(s, events)
    ensures Inv(Run(s, events))
    decreases |events|
  {
    if |events| > 0 {
      StepKeeps(s, events[0]);
      RunKeeps(Apply(s, events[0]), events[1..]);
    }
  }
}
