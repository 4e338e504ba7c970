/** Key records, their creation, and the registry that holds them until they expire. */
module KeyTypes {
  import opened Statuses
  import opened Handles
  import opened X25519

  datatype KeySpec =
    | KemWithBindingPub(algo: HpkeAlgorithm, kemPublicKey: Key32, bindingPublicKey: Key32)
    | Binding(algo: HpkeAlgorithm, bindingPublicKey: Key32)

  datatype KeyMetadata = KeyMetadata(id: Uuid, createdAt: nat, deleteAfter: nat, spec: KeySpec)

  datatype KeyRecord = KeyRecord(meta: KeyMetadata, privateKey: Key32)

  // ---------- creation ----------

  /** Instants are nanoseconds; their seconds are a signed 64-bit number. */
  const SECOND: nat := 1_000_000_000
  const MAX_INSTANT: nat := 0x8000_0000_0000_0000 * SECOND - 1

  function CheckedAdd(now: nat, secs: nat): (r: Option<nat>)
    ensures r.Some? <==> now + secs * SECOND <= MAX_INSTANT
    ensures r.Some? ==> r.value == now + secs * SECOND
  {
    if now + secs * SECOND <= MAX_INSTANT then Some(now + secs * SECOND) else None
  }

  /** What the environment supplies to a creation: a random id, a random secret, and
      whether protected memory could be had. */
  datatype Draw = Draw(id: Uuid, secret: Key32, vaultOk: bool)

  /** The record of a key with the given drawn secret; `bound` is the binding key of a KEM key. */
  function CreateKey(algo: HpkeAlgorithm, secs: nat, now: nat, draw: Draw, bound: Option<Key32>)
    : (r: Result<KeyRecord>)
    ensures r.Ok? <==> SupportedSuite(algo) && draw.vaultOk && now + secs * SECOND <= MAX_INSTANT
    ensures r.Ok? ==> r.value.meta.id == draw.id && WellFormed(r.value)
    ensures r.Ok? ==> r.value.meta.createdAt == now && r.value.meta.deleteAfter - now == secs * SECOND
  {
    if !SupportedSuite(algo) then Err(UnsupportedAlgorithm)
    else
      var pk := PublicKey(draw.secret);
      if !draw.vaultOk then Err(CryptoError)
      else
        match CheckedAdd(now, secs)
        case None => Err(UnsupportedAlgorithm)
        case Some(deleteAfter) =>
          var spec := if bound.Some? then KemWithBindingPub(algo, pk, bound.value) else Binding(algo, pk);
          Ok(KeyRecord(KeyMetadata(draw.id, now, deleteAfter, spec), draw.secret))
  }

  /** What every created record satisfies. */
  predicate WellFormed(r: KeyRecord) {
    && r.meta.createdAt <= r.meta.deleteAfter
    && match r.meta.spec
       case KemWithBindingPub(algo, pk, _) => SupportedSuite(algo) && pk == PublicKey(r.privateKey)
       case Binding(algo, pk) => SupportedSuite(algo) && pk == PublicKey(r.privateKey)
  }

  function CreateBindingKey(algo: HpkeAlgorithm, secs: nat, now: nat, draw: Draw): Result<KeyRecord> {
    CreateKey(algo, secs, now, draw, None)
  }

  function CreateBoundKemKey(algo: HpkeAlgorithm, bindingPublicKey: Key32, secs: nat, now: nat, draw: Draw)
    : Result<KeyRecord>
  {
    if algo.kem != 1 then Err(InvalidKey) else CreateKey(algo, secs, now, draw, Some(bindingPublicKey))
  }

  /** Whole seconds left, zero once expired. */
  function RemainingSecs(deleteAfter: nat, now: nat): nat {
    if deleteAfter > now then (deleteAfter - now) / SECOND else 0
  }

  // ---------- the registry's contents ----------

  type Keys = map<Uuid, KeyRecord>

  predicate WellKeyed(keys: Keys) {
    forall id :: id in keys ==> keys[id].meta.id == id
  }

  predicate Live(keys: Keys, now: nat, id: Uuid) {
    id in keys && keys[id].meta.deleteAfter > now
  }

  function GetKey(keys: Keys, now: nat, id: Uuid): Option<KeyRecord> {
    if Live(keys, now, id) then Some(keys[id]) else None
  }

  function Lookup(keys: Keys, id: Uuid): Option<KeyRecord> {
    if id in keys then Some(keys[id]) else None
  }

  function Retain(keys: Keys, now: nat): Keys {
    map id | id in keys && keys[id].meta.deleteAfter > now :: keys[id]
  }

  /** The hash map behind the lock; each method is one critical section. */
  class KeyRegistry {
    var keys: Keys

    constructor ()
      ensures keys == map[]
    {
      keys := map[];
    }

    method AddKey(record: KeyRecord)
      modifies this
      ensures keys == old(keys)[record.meta.id := record]
      ensures old(WellKeyed(keys)) ==> WellKeyed(keys)
    {
      keys := keys[record.meta.id := record];
    }

    method RemoveKey(id: Uuid) returns (removed: Option<KeyRecord>)
      modifies this
      ensures removed == Lookup(old(keys), id)
      ensures keys == old(keys) - {id}
    {
      removed := Lookup(keys, id);
      keys := keys - {id};
    }

    method RemoveAllKeys()
      modifies this
      ensures keys == map[]
    {
      keys := map[];
    }

    method GetLive(id: Uuid, now: nat) returns (found: Option<KeyRecord>)
      ensures found == GetKey(keys, now, id)
    {
      found := None;
      if id in keys {
        var record := keys[id];
        if record.meta.deleteAfter > now {
          found := Some(record);
        }
      }
    }

    /** One pass of the reaper; `now` was sampled before the lock was taken. */
    method Sweep(now: nat)
      modifies this
      ensures forall id :: id in keys <==> id in old(keys) && old(keys)[id].meta.deleteAfter > now
      ensures forall id :: id in keys ==> keys[id] == old(keys)[id]
      ensures keys == Retain(old(keys), now)
    {
      var left, kept := keys.Keys, map[];
      while left != {}
        invariant left <= keys.Keys && keys == old(keys)
        invariant kept == map id | id in keys && id !in left && keys[id].meta.deleteAfter > now :: keys[id]
        decreases left
      {
        var id :| id in left;
        left := left - {id};
        if keys[id].meta.deleteAfter > now {
          kept := kept[id := keys[id]];
        }
      }
      keys := kept;
    }
  }
}
