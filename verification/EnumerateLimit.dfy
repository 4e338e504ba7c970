/**
  The workload is shown one page of its keys. A workload that generates one key more than
  the page holds is not shown them all, and nothing tells it so.
  */
module EnumerateLimit {
  import opened SymbolicBytes
  import opened Handles
  import opened X25519
  import opened KeyTypes
  import opened Listing
  import opened RemoteKps
  import opened Protocol
  import opened WorkloadServer

  // ---------- any number of keys can be generated ----------

  const MANY: nat := 0x1_0000_0000
  const KEY: Key32 := Octets(Random(0), 32)

  function BindingId(i: nat): Uuid
    requires i < MANY
  {
    (2 * i) as Uuid
  }

  function KemId(i: nat): Uuid
    requires i < MANY
  {
    (2 * i + 1) as Uuid
  }

  /** n generates have been answered, their keys all live, and no time has passed. */
  predicate AfterGenerates(s: State, n: nat)
    requires n <= MANY
  {
    && s.kps.clock == 0 && s.wsd.clock == 0 && s.heart.Idle?
    && (forall r :: r in s.requests ==> r < n)
    && (forall id :: id in s.past.kems || id in s.past.bindings ==> id as int < 2 * n)
    && (forall id :: id in s.kps.keys ==> id in s.mapping && s.kps.keys[id].meta.id == id)
    && (forall i :: 0 <= i < n ==> Live(s.kps.keys, 0, KemId(i)))
  }

  lemma BindingMade(s: State, n: nat) returns (s': State)
    requires n < MANY && AfterGenerates(s, n)
    ensures var e := GenBind(n, 1, Draw(BindingId(n), KEY, true)); Enabled(s, e) && s' == Apply(s, e)
    ensures s'.requests == s.requests[n := GenBound(1, BindingId(n), PublicKey(KEY))]
    ensures s'.kps == s.kps && s'.mapping == s.mapping && s'.heart == s.heart && s'.wsd.clock == 0
    ensures s'.past.kems == s.past.kems && s'.past.bindings.Keys == s.past.bindings.Keys + {BindingId(n)}
  {
    s' := Apply(s, GenBind(n, 1, Draw(BindingId(n), KEY, true)));
  }

  lemma KemMade(s: State, n: nat) returns (s': State)
    requires n < MANY && Unused(s, KemId(n)) && s.kps.clock == 0
    requires n in s.requests && s.requests[n] == GenBound(1, BindingId(n), PublicKey(KEY))
    ensures var e := GenKem(n, true, Draw(KemId(n), KEY, true)); Enabled(s, e) && s' == Apply(s, e)
    ensures s'.requests == s.requests[n := GenKeyed(BindingId(n), KemId(n), PublicKey(KEY))]
    ensures s'.kps.clock == 0 && s'.wsd == s.wsd && s'.mapping == s.mapping && s'.heart == s.heart
    ensures s'.past.bindings == s.past.bindings && s'.past.kems.Keys == s.past.kems.Keys + {KemId(n)}
    ensures KemId(n) in s'.kps.keys && s'.kps.keys == s.kps.keys[KemId(n) := s'.kps.keys[KemId(n)]]
    ensures Live(s'.kps.keys, 0, KemId(n)) && s'.kps.keys[KemId(n)].meta.id == KemId(n)
  {
    s' := Apply(s, GenKem(n, true, Draw(KemId(n), KEY, true)));
  }

  lemma OneMore(s: State, n: nat) returns (events: seq<Event>)
    requires n < MANY && AfterGenerates(s, n)
    ensures CanRun(s, events) && AfterGenerates(Run(s, events), n + 1)
  {
    var bind, kem := GenBind(n, 1, Draw(BindingId(n), KEY, true)), GenKem(n, true, Draw(KemId(n), KEY, true));
    var bound := BindingMade(s, n);
    var keyed := KemMade(bound, n);
    var done := GenMapStep(keyed, n);
    GrownByOne(s, keyed, done, n);
    RunThree(s, bind, kem, GenMap(n), bound, keyed, done);
    events := [bind] + [kem] + [GenMap(n)];
  }

  lemma GrownByOne(s: State, keyed: State, done: State, n: nat)
    requires n < MANY && AfterGenerates(s, n)
    requires keyed.requests.Keys == s.requests.Keys + {n}
    requires At(keyed, n, GenKeyed(BindingId(n), KemId(n), PublicKey(KEY))) && done == GenMapStep(keyed, n)
    requires keyed.kps.clock == 0 && keyed.wsd.clock == 0 && keyed.heart.Idle? && keyed.mapping == s.mapping
    requires keyed.past.kems.Keys == s.past.kems.Keys + {KemId(n)}
    requires keyed.past.bindings.Keys == s.past.bindings.Keys + {BindingId(n)}
    requires Live(keyed.kps.keys, 0, KemId(n)) && keyed.kps.keys[KemId(n)].meta.id == KemId(n)
    requires keyed.kps.keys == s.kps.keys[KemId(n) := keyed.kps.keys[KemId(n)]]
    ensures AfterGenerates(done, n + 1)
  {
    forall i | 0 <= i < n + 1
      ensures Live(done.kps.keys, 0, KemId(i))
    {
      assert i < n ==> Live(s.kps.keys, 0, KemId(i)) && KemId(i) != KemId(n);
    }
  }

  lemma {:induction false} GenerateMany(c: Curve, n: nat) returns (events: seq<Event>)
    requires n <= MANY
    ensures CanRun(Init(c), events) && AfterGenerates(Run(Init(c), events), n)
  {
    if n == 0 {
      events := [];
    } else {
      events := GenerateMany(c, n - 1);
      var more := OneMore(Run(Init(c), events), n - 1);
      RunConcat(Init(c), events, more);
      events := events + more;
    }
  }

  // ---------- counting ----------

  function Ids(l: Metas): set<Uuid> {
    set i | 0 <= i < |l| :: l[i].id
  }

  lemma {:induction false} IdsBound(l: Metas)
    ensures |Ids(l)| <= |l|
  {
    if |l| > 0 {
      var front := l[..|l| - 1];
      IdsBound(front);
      assert Ids(l) == Ids(front) + {l[|l| - 1].id};
    }
  }

  function KemIds(n: nat): set<Uuid>
    requires n <= MANY
  {
    set i | 0 <= i < n :: KemId(i)
  }

  lemma {:induction false} KemIdsCount(n: nat)
    requires n <= MANY
    ensures |KemIds(n)| == n
  {
    if n > 0 {
      KemIdsCount(n - 1);
      assert KemId(n - 1) !in KemIds(n - 1);
      assert KemIds(n) == KemIds(n - 1) + {KemId(n - 1)};
    }
  }

  lemma SubsetCount(a: set<Uuid>, b: set<Uuid>)
    requires a <= b
    ensures |a| <= |b|
  {
    assert b == a + (b - a);
  }

  lemma ListsAllOfThem(s: State, n: nat, l: Metas)
    requires n <= MANY && AfterGenerates(s, n) && IsListing(s.kps.keys, 0, l)
    ensures |l| >= n
  {
    forall i | 0 <= i < n
      ensures KemId(i) in Ids(l)
    {
      assert Live(s.kps.keys, 0, KemId(i));
      assert Listed(s.kps.keys, 0, s.kps.keys[KemId(i)].meta);
      var j :| 0 <= j < |l| && l[j] == s.kps.keys[KemId(i)].meta;
    }
    assert KemIds(n) <= Ids(l);
    SubsetCount(KemIds(n), Ids(l));
    KemIdsCount(n);
    IdsBound(l);
  }

  // ---------- a key that is not shown ----------

  /** There is a first page, and every first page leaves out a live key that the workload generated. */
  ghost predicate LeavesKeyOut(s: State, limit: nat) {
    && (exists l :: IsListing(s.kps.keys, s.kps.clock, l))
    && forall l, infos :: IsListing(s.kps.keys, s.kps.clock, l) && Shows(infos, Page(l, 0, limit)) ==>
         exists id :: id in s.mapping && Live(s.kps.keys, s.kps.clock, id) && !Names(infos, id)
  }

  lemma OverfullLeavesOut(s: State, limit: nat)
    requires limit < MANY && AfterGenerates(s, limit + 1)
    ensures LeavesKeyOut(s, limit)
  {
    var l := ListingExists(s.kps.keys, s.kps.clock);
    forall l, infos | IsListing(s.kps.keys, s.kps.clock, l) && Shows(infos, Page(l, 0, limit))
      ensures exists id :: id in s.mapping && Live(s.kps.keys, s.kps.clock, id) && !Names(infos, id)
    {
      ListsAllOfThem(s, limit + 1, l);
      NextIsNotNamed(s.kps.keys, s.kps.clock, l, infos, limit);
    }
  }

  /** After one generate more than the daemon's page holds, the daemon's answer leaves a live key out. */
  lemma LargeWorkloadIsNotShownAll(c: Curve)
    ensures exists events :: CanRun(Init(c), events) && LeavesKeyOut(Run(Init(c), events), DEFAULT_ENUMERATE_LIMIT)
  {
    var events := GenerateMany(c, DEFAULT_ENUMERATE_LIMIT + 1);
    OverfullLeavesOut(Run(Init(c), events), DEFAULT_ENUMERATE_LIMIT);
  }
}
