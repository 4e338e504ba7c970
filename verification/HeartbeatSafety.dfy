/**
  What the heartbeat buys: after a first handshake that no key predates, the map never
  holds a key of a KPS boot older than the cached token, but for a generate that already
  held its KEM key while a cleanup ran.
  */
module HeartbeatSafety {
  import opened Statuses
  import opened SymbolicBytes
  import opened Handles
  import opened X25519
  import opened KeyTypes
  import opened Protocol
  import opened Invariant
  import opened Guarantees

  /** Key h was made by the cached boot or a later one, or is one of the excepted. */
  predicate CurrentKey(s: State, h: Uuid, token: nat) {
    h in s.past.kems && (token <= s.past.kems[h].boot || h in s.past.stale)
  }

  predicate MapIsCurrent(s: State) {
    s.cached.Some? ==> forall h :: h in s.mapping ==> CurrentKey(s, h, s.cached.value)
  }

  /** The same of every key mapped or about to be. */
  predicate AllCurrent(s: State, token: nat) {
    && (forall h :: h in s.mapping ==> CurrentKey(s, h, token))
    && (forall r :: r in s.requests && s.requests[r].GenKeyed? ==> CurrentKey(s, s.requests[r].h, token))
  }

  predicate Synchronised(s: State) {
    s.cached.Some? && AllCurrent(s, s.cached.value)
  }

  lemma HandlersStaySynchronised(s: State, e: Event)
    requires HeartOk(s) && Enabled(s, e) && Synchronised(s) && !Background(e)
    ensures Synchronised(Apply(s, e))
  {
    if e.GenKem? {
      GenKemStaysSynchronised(s, e.r, e.reachable, e.draw);
    } else {
      NoNewKems(s, e);
      SameKemsStaySynchronised(s, Apply(s, e), e);
    }
  }

  /** What a handler step other than the KEM step leaves alone. */
  predicate SameKems(s: State, s': State, e: Event)
    requires Enabled(s, e) && !Background(e)
  {
    && s'.past.kems == s.past.kems && s'.past.stale == s.past.stale && s'.cached == s.cached
    && e.r in s'.requests && !s'.requests[e.r].GenKeyed?
    && (forall r :: r in s'.requests && r != e.r ==> r in s.requests && s'.requests[r] == s.requests[r])
    && (forall h :: h in s'.mapping ==> h in s.mapping || (e.GenMap? && h == s.requests[e.r].h))
  }

  lemma NoNewKems(s: State, e: Event)
    requires Enabled(s, e) && !Background(e) && !e.GenKem?
    ensures SameKems(s, Apply(s, e), e)
  {
    if e.GenBind? || e.GenMap? {
      NoNewKemsByGenerate(s, e);
    } else if e.DecLook? || e.DecSeal? || e.DecOpen? {
      NoNewKemsByDecaps(s, e);
    } else {
      NoNewKemsByDestroy(s, e);
    }
  }

  lemma NoNewKemsByGenerate(s: State, e: Event)
    requires Enabled(s, e) && (e.GenBind? || e.GenMap?)
    ensures SameKems(s, Apply(s, e), e)
  {
  }

  lemma NoNewKemsByDecaps(s: State, e: Event)
    requires Enabled(s, e) && (e.DecLook? || e.DecSeal? || e.DecOpen?)
    ensures SameKems(s, Apply(s, e), e)
  {
  }

  lemma NoNewKemsByDestroy(s: State, e: Event)
    requires Enabled(s, e) && (e.DesLook? || e.DesAtKps? || e.DesAtWsd? || e.DesUnmap?)
    ensures SameKems(s, Apply(s, e), e)
  {
  }

  lemma SameKemsStaySynchronised(s: State, s': State, e: Event)
    requires Enabled(s, e) && !Background(e) && SameKems(s, s', e) && Synchronised(s)
    ensures Synchronised(s')
  {
  }

  lemma GenKemStaysSynchronised(s: State, r: nat, reachable: bool, draw: Draw)
    requires HeartOk(s) && Synchronised(s) && Enabled(s, GenKem(r, reachable, draw))
    ensures Synchronised(GenKemStep(s, r, reachable, draw))
  {
  }

  lemma BackgroundStaysSynchronised(s: State, e: Event)
    requires HeartOk(s) && Enabled(s, e) && Synchronised(s) && Background(e)
    ensures Synchronised(Apply(s, e))
  {
    if e.CleanReset? {
      assert forall r :: r in s.requests && s.requests[r].GenKeyed? ==> s.requests[r].h in Held(s);
    }
  }

  /** From a synchronised state the map stays current for ever. */
  lemma {:induction false} StaysSynchronised(s: State, events: seq<Event>)
    requires Inv(s) && CanRun(s, events) && Synchronised(s)
    ensures Synchronised(Run(s, events))
    decreases |events|
  {
    if |events| > 0 {
      if Background(events[0]) {
        BackgroundStaysSynchronised(s, events[0]);
      } else {
        HandlersStaySynchronised(s, events[0]);
      }
      StepKeeps(s, events[0]);
      StaysSynchronised(Apply(s, events[0]), events[1..]);
    }
  }

  /** The first handshake is safe exactly when no key mapped or about to be is older than the KPS
      that answers: only then is the map current in every state of every continuation. */
  lemma FirstHandshakeSafeIff(c: Curve, before: seq<Event>)
    requires CanRun(Init(c), before)
    requires var s := Run(Init(c), before); s.cached.None? && s.heart.Idle?
    ensures var s := Run(Init(c), before);
            var s' := Apply(s, BeatToken);
            (forall events :: CanRun(s', events) ==> MapIsCurrent(Run(s', events))) <==> AllCurrent(s, s.boot)
  {
    var s := Reached(c, before);
    StepKeeps(s, BeatToken);
    SafeIffAllCurrent(s, Apply(s, BeatToken));
  }

  lemma SafeIffAllCurrent(s: State, s': State)
    requires s.cached.None? && s.heart.Idle? && s' == s.(cached := Some(s.boot)) && Inv(s')
    ensures (forall events :: CanRun(s', events) ==> MapIsCurrent(Run(s', events))) <==> AllCurrent(s, s.boot)
  {
    if AllCurrent(s, s.boot) {
      forall events | CanRun(s', events)
        ensures MapIsCurrent(Run(s', events))
      {
        StaysSynchronised(s', events);
      }
    } else {
      var events := Exposing(s, s');
    }
  }

  /** Otherwise the map is out of date at once, or as soon as the held key is mapped. */
  lemma Exposing(s: State, s': State) returns (events: seq<Event>)
    requires s.cached.None? && s.heart.Idle? && !AllCurrent(s, s.boot) && s' == s.(cached := Some(s.boot))
    ensures CanRun(s', events) && !MapIsCurrent(Run(s', events))
  {
    if h :| h in s.mapping && !CurrentKey(s, h, s.boot) {
      events := [];
      assert !CurrentKey(s', h, s'.cached.value);
    } else {
      var r :| r in s.requests && s.requests[r].GenKeyed? && !CurrentKey(s, s.requests[r].h, s.boot);
      events := [GenMap(r)];
      MappingExposes(s', r);
    }
  }

  lemma MappingExposes(s: State, r: nat)
    requires s.cached.Some? && s.heart.Idle? && r in s.requests && s.requests[r].GenKeyed?
    requires !CurrentKey(s, s.requests[r].h, s.cached.value)
    ensures CanRun(s, [GenMap(r)]) && !MapIsCurrent(Run(s, [GenMap(r)]))
  {
    var last := GenMapStep(s, r);
    assert s.requests[r].h in last.mapping && !CurrentKey(last, s.requests[r].h, last.cached.value);
    RunOne(s, GenMap(r));
  }

  // ---------- the two cases in practice ----------

  predicate NoKemYet(s: State) {
    s.mapping == map[] && forall r :: r in s.requests ==> !s.requests[r].GenKeyed?
  }

  lemma {:induction false} NoKemBeforeGenerates(s: State, events: seq<Event>)
    requires CanRun(s, events) && NoKemYet(s)
    requires forall i :: 0 <= i < |events| ==> !events[i].GenKem?
    ensures NoKemYet(Run(s, events))
    decreases |events|
  {
    if |events| > 0 {
      assert !events[0].GenKem?;
      NoKemYetStays(s, events[0]);
      NoKemBeforeGenerates(Apply(s, events[0]), events[1..]);
    }
  }

  lemma NoKemYetStays(s: State, e: Event)
    requires Enabled(s, e) && NoKemYet(s) && !e.GenKem?
    ensures NoKemYet(Apply(s, e))
  {
    if !Background(e) {
      NoNewKems(s, e);
    }
  }

  /** If the first handshake comes before the first KEM key, the map is current in every later state. */
  lemma EarlyHandshakeKeepsMapCurrent(c: Curve, before: seq<Event>, after: seq<Event>)
    requires CanRun(Init(c), before)
    requires forall i :: 0 <= i < |before| ==> !before[i].GenKem?
    requires var s := Run(Init(c), before); s.cached.None? && s.heart.Idle? && CanRun(Apply(s, BeatToken), after)
    ensures MapIsCurrent(Run(Apply(Run(Init(c), before), BeatToken), after))
  {
    NoKemBeforeGenerates(Init(c), before);
    FirstHandshakeSafeIff(c, before);
  }

  const SAMPLE_KEY: Key32 := Octets(Random(0), 32)

  lemma SampleBinding(c: Curve) returns (events: seq<Event>)
    ensures CanRun(Init(c), events)
    ensures var s := Run(Init(c), events);
            && s.requests == map[0 := GenBound(1, 1, PublicKey(SAMPLE_KEY))]
            && s.past.kems == map[] && s.past.bindings.Keys == {1}
            && s.heart.Idle? && s.cached.None? && s.boot == 0 && s.kps.clock == 0 && s.past.stale == {}
  {
    RunExtends(Init(c), [], GenBind(0, 1, Draw(1, SAMPLE_KEY, true)));
    events := [] + [GenBind(0, 1, Draw(1, SAMPLE_KEY, true))];
  }

  lemma SampleKem(c: Curve) returns (events: seq<Event>)
    ensures CanRun(Init(c), events)
    ensures var s := Run(Init(c), events);
            && s.requests == map[0 := GenKeyed(1, 2, PublicKey(SAMPLE_KEY))]
            && 2 in s.past.kems && s.past.kems[2].boot == 0
            && s.heart.Idle? && s.cached.None? && s.boot == 0 && s.past.stale == {}
  {
    events := SampleBinding(c);
    RunExtends(Init(c), events, GenKem(0, true, Draw(2, SAMPLE_KEY, true)));
    events := events + [GenKem(0, true, Draw(2, SAMPLE_KEY, true))];
  }

  /** h is mapped although the KPS that made it is gone, and the daemon has the present KPS's token. */
  predicate MissedReboot(s: State, h: Uuid) {
    && h in s.mapping && h in s.past.kems && KemDead(s, h)
    && s.past.kems[h].boot < s.boot && s.cached == Some(s.boot) && s.heart.Idle?
  }

  /** A daemon that makes a KEM key and misses a KPS reboot before its first handshake comes to map a
      dead key, older than the token it caches, while its heartbeat sees nothing amiss. */
  lemma LateHandshakeMissesReboot(c: Curve)
    ensures exists events, h ::
              CanRun(Init(c), events) && MissedReboot(Run(Init(c), events), h) && !MapIsCurrent(Run(Init(c), events))
  {
    var events := SampleKem(c);
    RunExtends(Init(c), events, KpsReboot(0));
    events := events + [KpsReboot(0)];
    RunExtends(Init(c), events, BeatToken);
    events := events + [BeatToken];
    var s := Run(Init(c), events);
    assert !CurrentKey(s, 2, 1);
    RunExtends(Init(c), events, GenMap(0));
    events := events + [GenMap(0)];
    assert 2 in Run(Init(c), events).mapping && !CurrentKey(Run(Init(c), events), 2, 1);
    assert MissedReboot(Run(Init(c), events), 2);
  }

  /** Any mapping to a key of an earlier boot, excepted or not, is inert. */
  lemma OlderMappingsAreInert(c: Curve, before: seq<Event>, after: seq<Event>, h: Uuid, r: nat)
    requires CanRun(Init(c), before) && CanRun(Run(Init(c), before), after)
    requires var s := Run(Init(c), before);
             h in s.mapping && r !in s.requests && h in s.past.kems && s.past.kems[h].boot < s.boot
    ensures !Delivered(Run(Run(Init(c), before), after), r, h)
  {
    var s := Reached(c, before);
    DeadMappingIsInert(c, before, after, h, r);
  }
}
