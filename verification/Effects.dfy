/**
  Exactly what each step does to the two registries, the map and the clocks: which keys
  appear, with what lifetime, which go, and that every other key keeps its record.
  */
module Effects {
  import opened SymbolicBytes
  import opened Handles
  import opened X25519
  import opened KeyTypes
  import opened Custody
  import opened Protocol

  // ---------- the KPS ----------

  /** The step takes key h out of the KPS, if it is there: a reboot, a sweep past its deadline, or a
      destroy that names it. */
  predicate DropsKem(s: State, e: Event, h: Uuid)
    requires Enabled(s, e)
  {
    match e
    case KpsReboot(_) => true
    case KpsSweep(sample) => h in s.kps.keys && s.kps.keys[h].meta.deleteAfter <= sample
    case DesAtKps(r, reachable) => reachable && s.requests[r].h == h
    case StrayDestroy(id) => id == h
    case _ => false
  }

  /** The step puts a new key under h: a call that reaches the KPS, when memory and clock allow. */
  predicate MakesKem(s: State, e: Event, h: Uuid)
    requires Enabled(s, e)
  {
    match e
    case GenKem(r, reachable, draw) =>
      reachable && draw.id == h && draw.vaultOk && s.kps.clock + s.requests[r].secs * SECOND <= MAX_INSTANT
    case StrayKem(bindingPub, secs, draw) =>
      |bindingPub| == 32 && draw.id == h && draw.vaultOk && s.kps.clock + secs * SECOND <= MAX_INSTANT
    case _ => false
  }

  /** The new key: the drawn one, bound to the caller's binding key, living as long as asked from now on
      the KPS's clock. */
  function KemMade(s: State, e: Event): KeyRecord
    requires Enabled(s, e) && (e.GenKem? || (e.StrayKem? && |e.bindingPub| == 32))
  {
    var secs := if e.GenKem? then s.requests[e.r].secs else e.secs;
    var bound := if e.GenKem? then s.requests[e.r].bindingPub else e.bindingPub;
    NewRecord(e.draw, s.kps.clock, secs, KemWithBindingPub(SUITE, PublicKey(e.draw.secret), bound))
  }

  /** Key h in the KPS after the step. */
  predicate KpsAfter(s: State, e: Event, h: Uuid, kps: Host)
    requires Enabled(s, e)
  {
    && (h in kps.keys <==> MakesKem(s, e, h) || (h in s.kps.keys && !DropsKem(s, e, h)))
    && (h in kps.keys ==> kps.keys[h] == if MakesKem(s, e, h) then KemMade(s, e) else s.kps.keys[h])
    && kps.clock == match e case KpsTick(ns) => s.kps.clock + ns case KpsReboot(clock) => clock case _ => s.kps.clock
  }

  predicate TouchesKps(e: Event) {
    e.GenKem? || e.DesAtKps? || e.KpsTick? || e.KpsSweep? || e.KpsReboot? || e.StrayKem? || e.StrayDestroy?
  }

  lemma KpsUntouched(s: State, e: Event)
    requires Enabled(s, e) && !TouchesKps(e)
    ensures Apply(s, e).kps == s.kps
  {
  }

  lemma KpsTouched(s: State, e: Event, h: Uuid)
    requires Enabled(s, e) && TouchesKps(e)
    ensures KpsAfter(s, e, h, Apply(s, e).kps)
  {
    if e.GenKem? {
      KpsGenerates(s, e, h);
    } else if e.StrayKem? {
      KpsGeneratesStray(s, e, h);
    } else {
      KpsLoses(s, e, h);
    }
  }

  lemma KpsGenerates(s: State, e: Event, h: Uuid)
    requires Enabled(s, e) && e.GenKem?
    ensures KpsAfter(s, e, h, Apply(s, e).kps)
  {
  }

  lemma KpsGeneratesStray(s: State, e: Event, h: Uuid)
    requires Enabled(s, e) && e.StrayKem?
    ensures KpsAfter(s, e, h, Apply(s, e).kps)
  {
  }

  lemma KpsLoses(s: State, e: Event, h: Uuid)
    requires Enabled(s, e) && TouchesKps(e) && !e.GenKem? && !e.StrayKem?
    ensures KpsAfter(s, e, h, Apply(s, e).kps)
  {
  }

  lemma KpsEffect(s: State, e: Event, h: Uuid)
    requires Enabled(s, e)
    ensures KpsAfter(s, e, h, Apply(s, e).kps)
    ensures Apply(s, e).boot == s.boot + if e.KpsReboot? then 1 else 0
  {
    if TouchesKps(e) {
      KpsTouched(s, e, h);
    } else {
      KpsUntouched(s, e);
    }
    BootEffect(s, e);
  }

  lemma BootEffect(s: State, e: Event)
    requires Enabled(s, e)
    ensures Apply(s, e).boot == s.boot + if e.KpsReboot? then 1 else 0
  {
  }

  // ---------- the daemon's registry ----------

  predicate DropsBinding(s: State, e: Event, b: Uuid)
    requires Enabled(s, e)
  {
    match e
    case CleanWipe(ok) => ok
    case WsdSweep(sample) => b in s.wsd.keys && s.wsd.keys[b].meta.deleteAfter <= sample
    case DesAtWsd(r) => s.requests[r].b == b
    case _ => false
  }

  predicate MakesBinding(s: State, e: Event, b: Uuid)
    requires Enabled(s, e)
  {
    e.GenBind? && e.draw.id == b && e.draw.vaultOk && s.wsd.clock + e.secs * SECOND <= MAX_INSTANT
  }

  predicate WsdAfter(s: State, e: Event, b: Uuid, wsd: Host)
    requires Enabled(s, e)
  {
    && (b in wsd.keys <==> MakesBinding(s, e, b) || (b in s.wsd.keys && !DropsBinding(s, e, b)))
    && (b in wsd.keys ==>
          wsd.keys[b] == if MakesBinding(s, e, b)
                         then NewRecord(e.draw, s.wsd.clock, e.secs, Binding(SUITE, PublicKey(e.draw.secret)))
                         else s.wsd.keys[b])
    && wsd.clock == s.wsd.clock + if e.WsdTick? then e.ns else 0
  }

  predicate TouchesWsd(e: Event) {
    e.GenBind? || e.DesAtWsd? || e.WsdTick? || e.WsdSweep? || e.CleanWipe?
  }

  lemma WsdUntouched(s: State, e: Event)
    requires Enabled(s, e) && !TouchesWsd(e)
    ensures Apply(s, e).wsd == s.wsd
  {
  }

  lemma WsdTouched(s: State, e: Event, b: Uuid)
    requires Enabled(s, e) && TouchesWsd(e)
    ensures WsdAfter(s, e, b, Apply(s, e).wsd)
  {
  }

  lemma WsdEffect(s: State, e: Event, b: Uuid)
    requires Enabled(s, e)
    ensures WsdAfter(s, e, b, Apply(s, e).wsd)
  {
    if TouchesWsd(e) {
      WsdTouched(s, e, b);
    } else {
      WsdUntouched(s, e);
    }
  }

  // ---------- the map ----------

  predicate DropsMapping(s: State, e: Event, h: Uuid)
    requires Enabled(s, e)
  {
    e.CleanReset? || (e.DesUnmap? && s.requests[e.r].h == h)
  }

  predicate MakesMapping(s: State, e: Event, h: Uuid)
    requires Enabled(s, e)
  {
    e.GenMap? && s.requests[e.r].h == h
  }

  lemma MapEffect(s: State, e: Event, h: Uuid)
    requires Enabled(s, e)
    ensures var mapping := Apply(s, e).mapping;
            && (h in mapping <==> MakesMapping(s, e, h) || (h in s.mapping && !DropsMapping(s, e, h)))
            && (h in mapping ==> mapping[h] == if MakesMapping(s, e, h) then s.requests[e.r].b else s.mapping[h])
  {
  }

  // ---------- the record of it all ----------

  /** A KEM key is recorded exactly when it is made, with the boot that made it. */
  lemma KemHistoryEffect(s: State, e: Event, h: Uuid)
    requires Enabled(s, e)
    ensures var kems := Apply(s, e).past.kems;
            && (h in kems <==> h in s.past.kems || MakesKem(s, e, h))
            && (h in kems ==> kems[h] == if MakesKem(s, e, h) then KemBirth(KemMade(s, e), s.boot) else s.past.kems[h])
  {
    if e.GenKem? {
      GenKemHistory(s, e, h);
    } else if e.StrayKem? {
      StrayKemHistory(s, e.bindingPub, e.secs, e.draw, h);
    } else {
      OtherKemHistory(s, e);
    }
  }

  lemma GenKemHistory(s: State, e: Event, h: Uuid)
    requires Enabled(s, e) && e.GenKem?
    ensures var kems := Apply(s, e).past.kems;
            && (h in kems <==> h in s.past.kems || MakesKem(s, e, h))
            && (h in kems ==> kems[h] == if MakesKem(s, e, h) then KemBirth(KemMade(s, e), s.boot) else s.past.kems[h])
  {
  }

  lemma StrayKemHistory(s: State, bindingPub: Bytes, secs: nat, draw: Draw, h: Uuid)
    requires Unused(s, draw.id)
    ensures var e, kems := StrayKem(bindingPub, secs, draw), StrayKemStep(s, bindingPub, secs, draw).past.kems;
            && (h in kems <==> h in s.past.kems || MakesKem(s, e, h))
            && (h in kems ==> kems[h] == if MakesKem(s, e, h) then KemBirth(KemMade(s, e), s.boot) else s.past.kems[h])
  {
  }

  lemma OtherKemHistory(s: State, e: Event)
    requires Enabled(s, e) && !e.GenKem? && !e.StrayKem?
    ensures Apply(s, e).past.kems == s.past.kems
  {
  }

  /** A binding key is recorded exactly when it is made, with the request that made it. */
  lemma BindingHistoryEffect(s: State, e: Event, b: Uuid)
    requires Enabled(s, e)
    ensures var bindings := Apply(s, e).past.bindings;
            && (b in bindings <==> b in s.past.bindings || MakesBinding(s, e, b))
            && (b in bindings ==>
                  bindings[b] == if MakesBinding(s, e, b) then BindingBirth(Apply(s, e).wsd.keys[b], e.r)
                                 else s.past.bindings[b])
  {
    if e.GenBind? {
      WsdEffect(s, e, b);
      GenBindHistory(s, e.r, e.secs, e.draw, b);
    } else {
      OtherBindingHistory(s, e);
    }
  }

  lemma GenBindHistory(s: State, r: nat, secs: nat, draw: Draw, b: Uuid)
    requires Enabled(s, GenBind(r, secs, draw))
    ensures var e, s' := GenBind(r, secs, draw), GenBindStep(s, r, secs, draw);
            && (b in s'.past.bindings <==> b in s.past.bindings || MakesBinding(s, e, b))
            && (MakesBinding(s, e, b) ==> b in s'.wsd.keys && s'.past.bindings[b] == BindingBirth(s'.wsd.keys[b], r))
            && (b in s'.past.bindings && !MakesBinding(s, e, b) ==> s'.past.bindings[b] == s.past.bindings[b])
  {
  }

  lemma OtherBindingHistory(s: State, e: Event)
    requires Enabled(s, e) && !e.GenBind?
    ensures Apply(s, e).past.bindings == s.past.bindings
  {
  }

  /** Excepted from the heartbeat's guarantee are just the KEM handles that an unfinished generate held
      while a cleanup reset the map; leaked, just what a cleanup unmapped that could not destroy it. */
  lemma ExceptionsEffect(s: State, e: Event, id: Uuid)
    requires Enabled(s, e)
    ensures id in Apply(s, e).past.stale <==>
            || id in s.past.stale
            || (e.CleanReset? && exists r :: r in s.requests && s.requests[r].GenKeyed? && s.requests[r].h == id)
    ensures id in Apply(s, e).past.leaked <==>
            || id in s.past.leaked
            || (e.CleanReset? && !s.heart.ok && exists h :: h in s.mapping && s.mapping[h] == id)
  {
    if e.CleanReset? {
      CleanupExceptions(s, id);
    } else {
      NoExceptions(s, e);
    }
  }

  lemma CleanupExceptions(s: State, id: Uuid)
    requires s.heart.Wiped?
    ensures var past := CleanResetStep(s).past;
            && (id in past.stale <==>
                id in s.past.stale || exists r :: r in s.requests && s.requests[r].GenKeyed? && s.requests[r].h == id)
            && (id in past.leaked <==>
                id in s.past.leaked || (!s.heart.ok && exists h :: h in s.mapping && s.mapping[h] == id))
  {
  }

  lemma NoExceptions(s: State, e: Event)
    requires Enabled(s, e) && !e.CleanReset?
    ensures Apply(s, e).past.stale == s.past.stale && Apply(s, e).past.leaked == s.past.leaked
  {
  }

  // ---------- what may happen when ----------

  /** Time, reboots and calls whose caller is gone come whenever they like; sweeps with any sample the
      clock has reached; handlers wait for the lock only while a cleanup holds it. */
  lemma NothingHeldBack(s: State, e: Event)
    ensures e.KpsTick? || e.WsdTick? || e.KpsReboot? || e.StrayDestroy? ==> Enabled(s, e)
    ensures e.KpsSweep? ==> (Enabled(s, e) <==> e.sample <= s.kps.clock)
    ensures e.WsdSweep? ==> (Enabled(s, e) <==> e.sample <= s.wsd.clock)
    ensures e.BeatToken? || e.BeatGiveUp? ==> (Enabled(s, e) <==> s.heart.Idle?)
    ensures e.DecLook? || e.DesLook? ==>
              (Enabled(s, e) <==> e.r !in s.requests && !s.heart.Locked? && !s.heart.Wiped?)
    ensures e.GenBind? ==> (Enabled(s, e) <==> e.r !in s.requests && Unused(s, e.draw.id))
  {
  }
}
