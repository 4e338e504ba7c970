/**
  The background reaper is invisible to readers: a registry swept at any moments, with
  samples of the clock as stale as they may be, answers like one that is never swept.
  */
module Reaper {
  import opened Handles
  import opened KeyTypes
  import opened Listing

  datatype Op =
    | Add(record: KeyRecord)
    | Remove(id: Uuid)
    | RemoveAll
    | Sweep(sample: nat)
    | Get(id: Uuid)
    | List

  /** An operation that holds the lock at time `at`. */
  datatype Timed = Timed(at: nat, op: Op)

  /** Time moves forward, and a sweep's sample was taken before it got the lock. */
  predicate WellTimed(ops: seq<Timed>) {
    && (forall i, j :: 0 <= i < j < |ops| ==> ops[i].at <= ops[j].at)
    && (forall i :: 0 <= i < |ops| ==> ops[i].op.Sweep? ==> ops[i].op.sample <= ops[i].at)
  }

  function Exec(keys: Keys, op: Op, sweeping: bool): Keys {
    match op
    case Add(record) => keys[record.meta.id := record]
    case Remove(id) => keys - {id}
    case RemoveAll => map[]
    case Sweep(sample) => if sweeping then Retain(keys, sample) else keys
    case Get(_) => keys
    case List => keys
  }

  /** The registry before operation n. */
  function Contents(ops: seq<Timed>, n: nat, sweeping: bool): Keys
    requires n <= |ops|
  {
    if n == 0 then map[] else Exec(Contents(ops, n - 1, sweeping), ops[n - 1].op, sweeping)
  }

  /** The operations are those of the registry itself. */
  method Perform(registry: KeyRegistry, now: nat, op: Op)
    modifies registry
    ensures registry.keys == Exec(old(registry.keys), op, true)
  {
    match op
    case Add(record) => registry.AddKey(record);
    case Remove(id) => var removed := registry.RemoveKey(id);
    case RemoveAll => registry.RemoveAllKeys();
    case Sweep(sample) => registry.Sweep(sample);
    case Get(id) => var found := registry.GetLive(id, now);
    case List =>
  }

  /** The reaper reaps: what is left after a sweep outlives its sample, and what outlives it is left. */
  lemma SweepsReap(ops: seq<Timed>, n: nat, id: Uuid)
    requires n < |ops| && ops[n].op.Sweep?
    ensures var before, after := Contents(ops, n, true), Contents(ops, n + 1, true);
            && (id in after <==> id in before && before[id].meta.deleteAfter > ops[n].op.sample)
            && (id in after ==> after[id] == before[id])
  {
  }

  predicate Shadows(swept: Keys, full: Keys, now: nat) {
    && (forall id :: id in swept ==> id in full && swept[id] == full[id])
    && (forall id :: id in full && full[id].meta.deleteAfter > now ==> id in swept)
  }

  /** What a caller of the operation can tell. */
  ghost predicate SameAnswer(swept: Keys, full: Keys, now: nat, op: Op) {
    match op
    case Get(id) => GetKey(swept, now, id) == GetKey(full, now, id)
    case List => forall l :: IsListing(swept, now, l) <==> IsListing(full, now, l)
    case Remove(id) =>
      || Lookup(swept, id) == Lookup(full, id)
      || (Lookup(swept, id).None? && Lookup(full, id).value.meta.deleteAfter <= now)
    case Sweep(sample) => forall id :: GetKey(Retain(swept, sample), now, id) == GetKey(swept, now, id)
    case _ => true
  }

  lemma {:induction false} SweptShadowsFull(ops: seq<Timed>, n: nat)
    requires WellTimed(ops) && n <= |ops|
    ensures forall now | n == 0 || ops[n - 1].at <= now :: Shadows(Contents(ops, n, true), Contents(ops, n, false), now)
  {
    if n > 0 {
      SweptShadowsFull(ops, n - 1);
      var swept, full := Contents(ops, n - 1, true), Contents(ops, n - 1, false);
      var at := ops[n - 1].at;
      assert n == 1 || ops[n - 2].at <= at;
      assert Shadows(swept, full, at);
    }
  }

  /** At every point of every run, the swept registry gives every reader the unswept answer;
      only a removal may miss, and only a record that had already expired. A sweep takes
      no live record away. */
  lemma ReaperTransparent(ops: seq<Timed>, n: nat)
    requires WellTimed(ops) && n < |ops|
    ensures SameAnswer(Contents(ops, n, true), Contents(ops, n, false), ops[n].at, ops[n].op)
  {
    SweptShadowsFull(ops, n);
    var swept, full, now := Contents(ops, n, true), Contents(ops, n, false), ops[n].at;
    assert n == 0 || ops[n - 1].at <= now;
    assert Shadows(swept, full, now);
    forall m
      ensures Listed(swept, now, m) <==> Listed(full, now, m)
    {
    }
  }
}
