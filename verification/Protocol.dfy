/**
  The workload daemon (WSD) and the key protection service (KPS) as one interleaved state
  machine. Every call into a custody core and every critical section of the daemon is one
  step; a request in flight is what its handler holds between two steps. The lock `mu` is
  held across steps only by cleanup.

  History fields record every key ever made. They take part in no step's outcome except
  that a new key's identifier is one never used before.
  */
module Protocol {
  import opened Statuses
  import opened SymbolicBytes
  import opened Handles
  import opened X25519
  import opened DecapsContext
  import opened KeyTypes
  import opened Custody
  import opened RemoteKps

  /** A registry and the monotonic clock of the machine it lives on. */
  datatype Host = Host(keys: Keys, clock: nat)

  /** What a handler holds between steps, or what it answered. */
  datatype Request =
    | GenRejected(error: Error)                                            // no key made
    | GenBound(secs: nat, b: Uuid, bindingPub: Key32)                      // binding key made
    | GenFailed(b: Uuid, error: Error)                                     // KEM step failed
    | GenKeyed(b: Uuid, h: Uuid, kemPub: Key32)                            // KEM key made, not yet mapped
    | GenDone(b: Uuid, h: Uuid, kemPub: Key32)                             // answered 200
    | DecLooked(h: Uuid, algorithm: int, enc: Bytes, b: Uuid)              // binding handle looked up
    | DecSealed(h: Uuid, algorithm: int, enc: Bytes, b: Uuid, sealEnc: Bytes, sealedCt: Bytes)
    | DecDone(h: Uuid, algorithm: int, enc: Bytes, secret: Bytes)          // answered 200
    | DecFailed(status: int)
    | DesLooked(h: Uuid, b: Uuid)
    | DesKps(h: Uuid, b: Uuid, kpsError: Option<Error>)
    | DesBoth(h: Uuid, b: Uuid, kpsError: Option<Error>, wsdError: Option<Error>)
    | DesDone(h: Uuid, b: Uuid, kpsError: Option<Error>, wsdError: Option<Error>)
    | DesUnknown                                                           // answered 404

  /** The heartbeat goroutine: idle, or on its way through cleanup. `next` is the token to cache
      afterwards, absent when cleanup was forced by persistent failure. */
  datatype Heart =
    | Idle
    | WantLock(next: Option<nat>)
    | Locked(next: Option<nat>)
    | Wiped(next: Option<nat>, ok: bool)

  datatype KemBirth = KemBirth(record: KeyRecord, boot: nat)
  datatype BindingBirth = BindingBirth(record: KeyRecord, owner: nat)

  datatype History = History(
    kems: map<Uuid, KemBirth>,          // every KEM key, with the KPS boot that made it
    bindings: map<Uuid, BindingBirth>,  // every binding key, with the request that made it
    bindingOf: map<Uuid, Uuid>,         // KEM handle to binding handle, for keys made by generates
    kemOf: map<Uuid, Uuid>,             // its inverse
    stale: set<Uuid>,                   // KEM handles held by an unfinished generate while a cleanup reset the map
    leaked: set<Uuid>)                  // bindings unmapped by a cleanup whose DestroyAllKeys failed

  /** Boot tokens are fresh, so the number of the boot stands for the token. */
  datatype State = State(
    curve: Curve,
    kps: Host,
    wsd: Host,
    boot: nat,
    mapping: map<Uuid, Uuid>,
    heart: Heart,
    cached: Option<nat>,
    requests: map<nat, Request>,
    past: History)

  datatype Event =
    | GenBind(r: nat, secs: nat, draw: Draw)
    | GenKem(r: nat, reachable: bool, draw: Draw)
    | GenMap(r: nat)
    | DecLook(r: nat, h: Uuid, algorithm: int, enc: Bytes)
    | DecSeal(r: nat, reachable: bool, ephemeral: Key32)
    | DecOpen(r: nat)
    | DesLook(r: nat, h: Uuid)
    | DesAtKps(r: nat, reachable: bool)
    | DesAtWsd(r: nat)
    | DesUnmap(r: nat)
    | BeatToken
    | BeatGiveUp
    | CleanLock
    | CleanWipe(ok: bool)
    | CleanReset
    | KpsTick(ns: nat)
    | WsdTick(ns: nat)
    | KpsSweep(sample: nat)
    | WsdSweep(sample: nat)
    | KpsReboot(clock: nat)
    | StrayKem(bindingPub: Bytes, secs: nat, draw: Draw)   // a call whose reply or caller is gone
    | StrayDestroy(h: Uuid)

  function Init(curve: Curve): State {
    State(curve, Host(map[], 0), Host(map[], 0), 0, map[], Idle, None, map[],
          History(map[], map[], map[], map[], {}, {}))
  }

  // ---------- when a step can be taken ----------

  predicate MuFree(s: State) {
    s.heart.Idle? || s.heart.WantLock?
  }

  predicate Unused(s: State, id: Uuid) {
    id !in s.past.kems && id !in s.past.bindings
  }

  predicate Enabled(s: State, e: Event) {
    match e
    case GenBind(r, _, draw) => r !in s.requests && Unused(s, draw.id)
    case GenKem(r, _, draw) => r in s.requests && s.requests[r].GenBound? && Unused(s, draw.id)
    case GenMap(r) => r in s.requests && s.requests[r].GenKeyed? && MuFree(s)
    case DecLook(r, _, _, _) => r !in s.requests && MuFree(s)
    case DecSeal(r, _, _) => r in s.requests && s.requests[r].DecLooked?
    case DecOpen(r) => r in s.requests && s.requests[r].DecSealed?
    case DesLook(r, _) => r !in s.requests && MuFree(s)
    case DesAtKps(r, _) => r in s.requests && s.requests[r].DesLooked?
    case DesAtWsd(r) => r in s.requests && s.requests[r].DesKps?
    case DesUnmap(r) => r in s.requests && s.requests[r].DesBoth? && MuFree(s)
    case BeatToken => s.heart.Idle?
    case BeatGiveUp => s.heart.Idle?
    case CleanLock => s.heart.WantLock?
    case CleanWipe(_) => s.heart.Locked?
    case CleanReset => s.heart.Wiped?
    case KpsSweep(sample) => sample <= s.kps.clock
    case WsdSweep(sample) => sample <= s.wsd.clock
    case StrayKem(_, _, draw) => Unused(s, draw.id)
    case _ => true
  }

  // ---------- what each step does ----------

  const UNREACHABLE := Grpc(OtherCode(4))

  function Note(s: State, r: nat, q: Request): State {
    s.(requests := s.requests[r := q])
  }

  function GenBindStep(s: State, r: nat, secs: nat, draw: Draw): State {
    var (keys, made) := GenerateBinding(SUITE, secs, s.wsd.keys, s.wsd.clock, draw, PUBKEY_BUF);
    match made
    case Err(e) => Note(s, r, GenRejected(FfiStatus(e)))
    case Ok((b, pk)) =>
      var past := s.past.(bindings := s.past.bindings[b := BindingBirth(keys[b], r)]);
      Note(s.(wsd := Host(keys, s.wsd.clock), past := past), r, GenBound(secs, b, pk))
  }

  function GenKemStep(s: State, r: nat, reachable: bool, draw: Draw): State
    requires r in s.requests && s.requests[r].GenBound?
  {
    var q := s.requests[r];
    var (keys, made) := GenerateKem(SUITE, q.bindingPub, q.secs, s.kps.keys, s.kps.clock, draw, PUBKEY_BUF);
    if !reachable then Note(s, r, GenFailed(q.b, UNREACHABLE))
    else
      match made
      case Err(e) => Note(s, r, GenFailed(q.b, FfiStatus(e)))
      case Ok((h, pk)) =>
        var past := s.past.(kems := s.past.kems[h := KemBirth(keys[h], s.boot)],
                            bindingOf := s.past.bindingOf[h := q.b],
                            kemOf := s.past.kemOf[q.b := h]);
        Note(s.(kps := Host(keys, s.kps.clock), past := past), r, GenKeyed(q.b, h, pk))
  }

  function GenMapStep(s: State, r: nat): State
    requires r in s.requests && s.requests[r].GenKeyed?
  {
    var q := s.requests[r];
    Note(s.(mapping := s.mapping[q.h := q.b]), r, GenDone(q.b, q.h, q.kemPub))
  }

  function DecLookStep(s: State, r: nat, h: Uuid, algorithm: int, enc: Bytes): State {
    if algorithm != 1 || |enc| == 0 then Note(s, r, DecFailed(400))
    else if h !in s.mapping then Note(s, r, DecFailed(404))
    else Note(s, r, DecLooked(h, algorithm, enc, s.mapping[h]))
  }

  function DecSealStep(s: State, r: nat, reachable: bool, ephemeral: Key32): State
    requires r in s.requests && s.requests[r].DecLooked?
  {
    var q := s.requests[r];
    if !reachable then Note(s, r, DecFailed(HttpStatus(Some(UNREACHABLE))))
    else
      var aad := Aad(q.h, q.algorithm);
      match DecapAndSeal(s.curve, s.kps.keys, s.kps.clock, q.h, q.enc, aad, ephemeral, ENC_BUF, SEALED_BUF)
      case Err(e) => Note(s, r, DecFailed(HttpStatus(Some(FfiStatus(e)))))
      case Ok((sealEnc, sealedCt)) => Note(s, r, DecSealed(q.h, q.algorithm, q.enc, q.b, sealEnc, sealedCt))
  }

  function DecOpenStep(s: State, r: nat): State
    requires r in s.requests && s.requests[r].DecSealed?
  {
    var q := s.requests[r];
    match Open(s.curve, s.wsd.keys, s.wsd.clock, q.b, q.sealEnc, q.sealedCt, Aad(q.h, q.algorithm), SECRET_BUF)
    case Err(e) => Note(s, r, DecFailed(HttpStatus(Some(FfiStatus(e)))))
    case Ok(pt) => Note(s, r, DecDone(q.h, q.algorithm, q.enc, pt))
  }

  function DesLookStep(s: State, r: nat, h: Uuid): State {
    if h !in s.mapping then Note(s, r, DesUnknown) else Note(s, r, DesLooked(h, s.mapping[h]))
  }

  function DestroyError(keys: Keys, id: Uuid): Option<Error> {
    if id in keys then None else Some(FfiStatus(NotFound))
  }

  function DesAtKpsStep(s: State, r: nat, reachable: bool): State
    requires r in s.requests && s.requests[r].DesLooked?
  {
    var q := s.requests[r];
    if !reachable then Note(s, r, DesKps(q.h, q.b, Some(UNREACHABLE)))
    else
      Note(s.(kps := Host(s.kps.keys - {q.h}, s.kps.clock)), r, DesKps(q.h, q.b, DestroyError(s.kps.keys, q.h)))
  }

  function DesAtWsdStep(s: State, r: nat): State
    requires r in s.requests && s.requests[r].DesKps?
  {
    var q := s.requests[r];
    Note(s.(wsd := Host(s.wsd.keys - {q.b}, s.wsd.clock)), r,
         DesBoth(q.h, q.b, q.kpsError, DestroyError(s.wsd.keys, q.b)))
  }

  function DesUnmapStep(s: State, r: nat): State
    requires r in s.requests && s.requests[r].DesBoth?
  {
    var q := s.requests[r];
    Note(s.(mapping := s.mapping - {q.h}), r, DesDone(q.h, q.b, q.kpsError, q.wsdError))
  }

  function BeatTokenStep(s: State): State {
    if s.cached.Some? && s.cached.value != s.boot then s.(heart := WantLock(Some(s.boot)))
    else s.(cached := Some(s.boot))
  }

  /** KEM handles that an unfinished generate holds. */
  function Held(s: State): set<Uuid> {
    set r | r in s.requests && s.requests[r].GenKeyed? :: s.requests[r].h
  }

  function CleanWipeStep(s: State, ok: bool): State
    requires s.heart.Locked?
  {
    s.(wsd := Host(if ok then map[] else s.wsd.keys, s.wsd.clock), heart := Wiped(s.heart.next, ok))
  }

  function CleanResetStep(s: State): State
    requires s.heart.Wiped?
  {
    var past := s.past.(stale := s.past.stale + Held(s),
                        leaked := if s.heart.ok then s.past.leaked else s.past.leaked + s.mapping.Values);
    s.(mapping := map[], heart := Idle, cached := if s.heart.next.Some? then s.heart.next else s.cached, past := past)
  }

  function StrayKemStep(s: State, bindingPub: Bytes, secs: nat, draw: Draw): State {
    var (keys, made) := GenerateKem(SUITE, bindingPub, secs, s.kps.keys, s.kps.clock, draw, PUBKEY_BUF);
    match made
    case Err(_) => s
    case Ok((h, _)) =>
      s.(kps := Host(keys, s.kps.clock), past := s.past.(kems := s.past.kems[h := KemBirth(keys[h], s.boot)]))
  }

  function Apply(s: State, e: Event): State
    requires Enabled(s, e)
  {
    match e
    case GenBind(r, secs, draw) => GenBindStep(s, r, secs, draw)
    case GenKem(r, reachable, draw) => GenKemStep(s, r, reachable, draw)
    case GenMap(r) => GenMapStep(s, r)
    case DecLook(r, h, algorithm, enc) => DecLookStep(s, r, h, algorithm, enc)
    case DecSeal(r, reachable, ephemeral) => DecSealStep(s, r, reachable, ephemeral)
    case DecOpen(r) => DecOpenStep(s, r)
    case DesLook(r, h) => DesLookStep(s, r, h)
    case DesAtKps(r, reachable) => DesAtKpsStep(s, r, reachable)
    case DesAtWsd(r) => DesAtWsdStep(s, r)
    case DesUnmap(r) => DesUnmapStep(s, r)
    case BeatToken => BeatTokenStep(s)
    case BeatGiveUp => s.(heart := WantLock(None))
    case CleanLock => s.(heart := Locked(s.heart.next))
    case CleanWipe(ok) => CleanWipeStep(s, ok)
    case CleanReset => CleanResetStep(s)
    case KpsTick(ns) => s.(kps := Host(s.kps.keys, s.kps.clock + ns))
    case WsdTick(ns) => s.(wsd := Host(s.wsd.keys, s.wsd.clock + ns))
    case KpsSweep(sample) => s.(kps := Host(Retain(s.kps.keys, sample), s.kps.clock))
    case WsdSweep(sample) => s.(wsd := Host(Retain(s.wsd.keys, sample), s.wsd.clock))
    case KpsReboot(clock) => s.(kps := Host(map[], clock), boot := s.boot + 1)
    case StrayKem(bindingPub, secs, draw) => StrayKemStep(s, bindingPub, secs, draw)
    case StrayDestroy(h) => s.(kps := Host(s.kps.keys - {h}, s.kps.clock))
  }

  // ---------- runs ----------

  predicate CanRun(s: State, events: seq<Event>)
    decreases |events|
  {
    |events| == 0 || (Enabled(s, events[0]) && CanRun(Apply(s, events[0]), events[1..]))
  }

  function Run(s: State, events: seq<Event>): State
    requires CanRun(s, events)
    decreases |events|
  {
    if |events| == 0 then s else Run(Apply(s, events[0]), events[1..])
  }

  /** Runs compose. */
  lemma {:induction false} RunConcat(s: State, first: seq<Event>, rest: seq<Event>)
    requires CanRun(s, first) && CanRun(Run(s, first), rest)
    ensures CanRun(s, first + rest) && Run(s, first + rest) == Run(Run(s, first), rest)
    decreases |first|
  {
    var all := first + rest;
    if |first| == 0 {
      assert all == rest;
    } else {
      assert all[1..] == first[1..] + rest;
      RunConcat(Apply(s, first[0]), first[1..], rest);
    }
  }

  lemma RunOne(s: State, e: Event)
    requires Enabled(s, e)
    ensures CanRun(s, [e]) && Run(s, [e]) == Apply(s, e)
  {
    assert [e][1..] == [];
  }

  lemma RunExtends(s: State, events: seq<Event>, e: Event)
    requires CanRun(s, events) && Enabled(Run(s, events), e)
    ensures CanRun(s, events + [e]) && Run(s, events + [e]) == Apply(Run(s, events), e)
  {
    RunOne(Run(s, events), e);
    RunConcat(s, events, [e]);
  }

  lemma {:induction false} RunSplits(s: State, events: seq<Event>, e: Event)
    requires CanRun(s, events + [e])
    ensures CanRun(s, events) && Enabled(Run(s, events), e)
    ensures Run(s, events + [e]) == Apply(Run(s, events), e)
    decreases |events|
  {
    var all := events + [e];
    if |events| == 0 {
      assert all == [e] && all[1..] == [];
    } else {
      assert all[1..] == events[1..] + [e];
      RunSplits(Apply(s, events[0]), events[1..], e);
    }
  }

  lemma RunThree(s: State, e: Event, e': Event, e'': Event, first: State, second: State, third: State)
    requires Enabled(s, e) && Apply(s, e) == first
    requires Enabled(first, e') && Apply(first, e') == second
    requires Enabled(second, e'') && Apply(second, e'') == third
    ensures CanRun(s, [e] + [e'] + [e'']) && Run(s, [e] + [e'] + [e'']) == third
  {
    RunOne(s, e);
    RunExtends(s, [e], e');
    RunExtends(s, [e] + [e'], e'');
  }

  /** The HTTP status of a finished request. */
  function Answer(q: Request): Option<int> {
    match q
    case GenRejected(e) => Some(HttpStatus(Some(e)))
    case GenFailed(_, e) => Some(HttpStatus(Some(e)))
    case GenDone(_, _, _) => Some(200)
    case DecDone(_, _, _, _) => Some(200)
    case DecFailed(status) => Some(status)
    case DesDone(_, _, kpsError, wsdError) =>
      var error := JoinErrors(kpsError, wsdError);
      Some(if error.None? then 204 else HttpStatus(error))
    case DesUnknown => Some(404)
    case _ => None
  }
}
