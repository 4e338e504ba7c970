# Key custody: a model of the workload daemon and the key protection service

A Workload Service Daemon (WSD) holds *binding* keys and a map from KEM handle to
binding handle. A Key Protection Service (KPS) holds *KEM* keys, each tied to a binding
public key. A client encapsulates to a KEM public key; the daemon asks the KPS to
decapsulate and reseal the secret to the binding key, and opens the box itself.

`dafny verify dfyconfig.toml` verifies everything (Dafny 4.11).

## Layout

| file | what it holds |
|---|---|
| `Integers`, `Statuses`, `SymbolicBytes`, `Handles` | machine integers; status codes; byte strings with symbolic secret parts; UUIDs and their text |
| `X25519`, `Rfc9180`, `DecapsContext`, `Custody` | DHKEM and HPKE as coded; DHKEM in the standard's own terms; the context string of a decapsulation; the two custody cores |
| `KeyTypes`, `Listing`, `Reaper`, `AlgorithmCodec`, `Enumerate` | key records and the expiring registry; paging; the reaper; the algorithm message; enumeration across the FFI |
| `Lifespan`, `Backoff`, `RemoteKps` | lifetimes in claims; the heartbeat's backoff; a KPS behind gRPC |
| `Protocol`, `Effects`, `Invariant` | the interleaved state machine; exactly what each step does; its invariant |
| `Guarantees`, `Availability`, `HeartbeatSafety` | over every run: what is never done, what always works, and what the heartbeat buys |
| `Secrecy` | what an observer of the connection can compute from a whole run |
| `Server`, `EnumerateLimit` | the daemon's handlers over mutable registries, each proved to be a run of the state machine; how its listing ends |

How the pieces meet. `Protocol` is a state machine whose steps are the custody-core calls
and the daemon's critical sections; requests in flight are part of the state, and clock
ticks, sweeps with stale clock samples, KPS reboots, heartbeats, cleanups and calls whose
caller is gone may come between any two steps. The steps use the functions of `Custody`
and `RemoteKps`; the imperative methods of `KeyTypes`, `Custody` and `Server` are proved
against the same functions, so what `Guarantees` says about runs is about them too.

Cryptography is symbolic. An octet is a known byte or the i-th byte of a term built by a
primitive; concatenation, slicing and lengths are real, so framing and label layout are
proved, not assumed. A Diffie-Hellman value is an unordered pair of keys, HKDF is
injective, and a box opens only with its recipient's key, its encapsulated key and its
associated data. The encodings X25519 rejects are a parameter of the model.

History fields (`past`) record every key ever made. They influence no step, except that
a new key's identifier is one never used before; UUIDs and boot tokens are thereby
assumed fresh.

## Findings

Two things one would expect that the code does not do, each with a run that shows it and
the exact condition.

- The first heartbeat comes too late to notice a KPS reboot that happened after the first
  KEM key was made: `HeartbeatSafety.LateHandshakeMissesReboot` is a run that ends with a
  dead key mapped and the running KPS's token cached. The map is current in every
  continuation exactly when no key mapped or about to be is older than the KPS that
  answers first (`HeartbeatSafety.FirstHandshakeSafeIff`).
- The daemon's listing reads one page of 10000 keys and drops the flag that there are
  more. `EnumerateLimit.LargeWorkloadIsNotShownAll` is a run of 10001 generates after which
  every answer leaves a live key out. All live keys are shown exactly when they fit the
  page (`WorkloadServer.FirstPageNamesAllIff`).

## Domain of validity

Some functions do what they should only for some arguments. Each has its exact condition,
and a lemma or contract that the program stays within it.

- The backoff schedule is min(initial·2^i, max) exactly when the last doubling fits int64
  (`Backoff.ScheduleIff`); the defaults, the only settings, do
  (`Backoff.DefaultsDoNotOverflow`).
- A remote KPS agrees with an in-process one under every map iteration order exactly when
  an error tree holds statuses of at most one gRPC code (`RemoteKps.RemoteAgreesIff`). A
  KPS raises chains around at most one status, which do
  (`RemoteKps.ChainsCarryOneCode`, `RemoteKps.RelayedStatusAgrees`).
- Remote and in-process enumeration have the same HTTP status exactly for limits 1 to
  10000 and offsets from 0 (`RemoteKps.EnumerateBothWays`); the daemon asks for 10000 from
  offset 0 (`RemoteKps.DaemonRequestIsValid`), so its answer does not depend on where the
  KPS is (`WorkloadServer.Server.HandleEnumerateKeys`).
- The FFI integer of an enumeration is read back as meant exactly for int32 counts and
  statuses other than Success and Unspecified (`Enumerate.ReturnCodeFaithfulIff`); an
  enumeration returns no other (`Enumerate.EnumerationCodesAreFaithful`).

## Model

| member | source | states |
|---|---|---|
| `Guarantees.DecapsReturnsClientSecret` | workload_service/server.go:532-586 | in every interleaved run, a decaps that answered 200 for a client's encapsulation to the returned public key returned exactly the client's secret |
| `Guarantees.LiveKeysAnswer` | workload_service/server.go:561-586 | it does answer 200 with that secret whenever the KEM key is live at the KPS step and the binding key at the open step, whatever other requests, sweeps, reboots or cleanups run in between |
| `Guarantees.SealSucceedsIff` | key_protection_service/key_custody_core/src/lib.rs:139-174 | the KPS step of a decaps in flight succeeds exactly when the KEM key is live there and the encapsulation decapsulates |
| `Guarantees.OpenSucceedsIff` | workload_service/key_custody_core/src/lib.rs:138-153 | the open step of a decaps in flight succeeds exactly when the binding key is live, and then returns the KEM key's secret; otherwise it is 404 |
| `Guarantees.MapIsInjectiveAndTied` | workload_service/server.go:618-635 | in every reachable state the map is injective, and a mapped KEM key still in the KPS carries the public key made for its mapped binding key, even if that key is gone |
| `Guarantees.KpsIsEnumerable` | key_protection_service/key_custody_core/src/lib.rs:211-242 | in every reachable state the KPS registry meets what enumeration needs never to return an internal error |
| `Guarantees.MappingIsOneWay` | workload_service/server.go:632-635 | a handle in the map keeps its binding handle, and once out it never returns |
| `Guarantees.DeadForGood` | km_common/src/key_types.rs:63-107 | a key no longer reachable by lookup, whether removed, expired or wiped, is unreachable in every later state, on both sides |
| `Guarantees.DeadBindingDeliversNothing` | workload_service/server.go:568-573 | once a published handle's binding key is dead, no unfinished decaps of it ever answers 200, not even one already resealed |
| `Guarantees.DeadKemDeliversNothing` | workload_service/server.go:561-566 | once a KEM key is dead, no decaps of it that is not yet past the KPS ever answers 200 |
| `Guarantees.DeadMappingIsInert` | workload_service/server.go:532-586 | a mapping whose KEM or binding key is gone never yields a 200 to a later decaps |
| `Guarantees.DestroyAnswersOnce` | workload_service/server.go:771-805 | across any run at most one destroy of a handle answers 204 |
| `Guarantees.DestroyIsFinal` | workload_service/server.go:771-805 | after a 204 no decaps of that handle is ever answered 200, including those in flight past the KPS |
| `Guarantees.BindingsAreAccountedFor` | workload_service/server.go:1002-1011 | while wipes succeed, every binding key in the registry is mapped, or its generate is in flight or failed at the KEM step |
| `Availability.KeyServesUntilEnded` | workload_service/server.go:532-655 | a key that a generate returned serves: through any run that does not end either key or the mapping, a decaps begun afterwards answers 200 with the client's secret |
| `Availability.DecapsSucceeds` | workload_service/server.go:532-586 | from any state in order, a client's encapsulation to a mapped KEM key with both keys live is looked up, resealed and opened to the client's secret |
| `Availability.OpenVerdict` | workload_service/server.go:532-586 | a decaps that nothing interrupts ends, in every case, with the status or secret that map, reachability, both keys and the encapsulation call for |
| `Availability.GenerateSucceeds` | workload_service/server.go:603-635 | a generate for which memory and clocks suffice ends with exactly its two keys added, each living as long as asked on its own side's clock, and exactly its mapping added |
| `Availability.KemStaysLiveIff` | km_common/src/key_types.rs:63-107 | a live KEM key is live after a step, with the same record, exactly unless the step is a reboot, a tick past its deadline or a destroy naming it |
| `Availability.KemLivesIff` | km_common/src/key_types.rs:63-107 | over every run, a live KEM key is live at the end exactly when no step of the run ended it |
| `Availability.BindingStaysLiveIff` | km_common/src/key_types.rs:63-107 | a live binding key is live after a step, with the same record, exactly unless the step is a wipe, a tick past its deadline or a destroy of it |
| `Availability.BindingLivesIff` | km_common/src/key_types.rs:63-107 | over every run, a live binding key is live at the end exactly when no step of the run ended it |
| `Availability.MappingLastsIff` | workload_service/server.go:791-1011 | over every run, a mapping is there at the end, unchanged, exactly when no cleanup reset the map and no destroy of its handle removed it |
| `Availability.GoneForGood` | km_common/src/key_types.rs:63-107 | a key taken out of its registry is never in it again |
| `Availability.SweptKemIsGone` | km_common/src/key_types.rs:100-103 | after a sweep at or past its deadline a KEM key is in no later KPS registry |
| `Availability.SweptBindingIsGone` | km_common/src/key_types.rs:100-103 | likewise a binding key in the daemon's registry |
| `Effects.KpsEffect` | key_protection_service/key_custody_core/src/lib.rs:21-136 | for every step and every handle: in the KPS afterwards exactly if made by the step, or there before and not dropped by it; new keys have the asked lifetime and binding, all others keep their record |
| `Effects.WsdEffect` | workload_service/key_custody_core/src/lib.rs:21-135 | the same of the daemon's registry |
| `Effects.MapEffect` | workload_service/server.go:632-1011 | the same of the map |
| `Effects.KemHistoryEffect` | key_protection_service/key_custody_core/src/lib.rs:21-36 | a KEM key is recorded exactly when made, with its record and the boot that made it |
| `Effects.BindingHistoryEffect` | workload_service/key_custody_core/src/lib.rs:21-36 | a binding key is recorded exactly when made, with the request that made it |
| `Effects.ExceptionsEffect` | workload_service/server.go:1002-1011 | a handle is excepted from the heartbeat's guarantee exactly if an unfinished generate held it while a cleanup reset the map, and a binding leaked exactly if a failed wipe unmapped it |
| `Effects.NothingHeldBack` | workload_service/server.go:493-499 | time, reboots, sweeps with any past sample and lost calls come at any moment; handlers wait only while a cleanup holds the lock |
| `Invariant.StepKeeps` | workload_service/server.go:532-1011 | every step of every handler, of the heartbeat and of the environment keeps the invariant over registries, births, pairs, map, requests in flight, removals and accounting |
| `Invariant.RunKeeps` | workload_service/server.go:532-1011 | the invariant holds in every reachable state |
| `HeartbeatSafety.FirstHandshakeSafeIff` | workload_service/server.go:945-1011 | after the first handshake the map holds no key older than the cached token in every continuation, but for keys a generate held during a cleanup, exactly when no key mapped or held predates the KPS that answered |
| `HeartbeatSafety.StaysSynchronised` | workload_service/server.go:945-1011 | from a synchronised state every run stays synchronised, across reboots, mismatches and cleanups |
| `HeartbeatSafety.EarlyHandshakeKeepsMapCurrent` | workload_service/server.go:956-970 | if the first handshake precedes the first KEM key, the map is current in every later state |
| `HeartbeatSafety.LateHandshakeMissesReboot` | workload_service/server.go:961-970 | there is a run in which a reboot before the first handshake goes unnoticed: a key that is dead and older than the running KPS is mapped while the cached token is the running KPS's |
| `HeartbeatSafety.OlderMappingsAreInert` | key_protection_service/server.go:97 | a mapping to a key of an earlier KPS boot never yields a 200 to a later decaps |
| `Secrecy.ObserverLearnsNoKey` | workload_service/server.go:351-357 | for every run, whatever program of primitives an observer runs over everything that crossed the connection, its output holds no byte of any KEM or binding private key |
| `Secrecy.ObserverLearnsNoSecret` | workload_service/server.go:351-357 | nor any byte of what a KEM key makes of an encapsulation, unless the secret of whoever made it was exposed |
| `Secrecy.DeliveredSecretIsNotComputed` | workload_service/server.go:351-357 | no observer computes the secret that a decaps of a hidden client's encapsulation answered |
| `Secrecy.ExposureReveals` | km_common/src/crypto/x25519.rs:53-149 | an observer who has the client's ephemeral secret and has seen the KEM public key does compute the decapsulated secret |
| `Secrecy.ComputedIsSafe` | workload_service/server.go:351-357 | what may be known is closed under every primitive: from messages that may be known nothing else is computed |
| `Secrecy.RunWireSafe` | workload_service/server.go:351-357 | everything that crosses the connection in a run may be known: each box is sealed between two hidden keys |
| `Secrecy.RunIsSeen` | workload_service/server.go:217-306 | the observer does see every KEM public key returned and the box of every decaps in flight |
| `Secrecy.EitherEndReadsBox` | km_common/src/crypto/x25519.rs:151-184 | with either end's secret the observer reads a box on the wire |
| `Secrecy.HonestRunDelivers` | workload_service/server.go:532-655 | an honest run that delivers a hidden client's secret exists |
| `WorkloadServer.Server.constructor` | workload_service/server.go:383-392 | a new daemon starts in the state machine's initial state |
| `WorkloadServer.Server.LookupBindingUuid` | workload_service/server.go:493-499 | found exactly when the handle is mapped; in a daemon that is in order, what is found is the binding key that the handle was generated with, and no other handle leads to it |
| `WorkloadServer.Server.GenerateKemKey` | workload_service/server.go:603-655 | an uninterrupted generate is a run made of its own request's steps; it returns a handle, and 200, exactly if memory, both clocks and the KPS allow; registries and map gain exactly the new keys, with the asked lifetime, and the new mapping; otherwise its status is 400 or 500 as the cause demands |
| `WorkloadServer.Server.HandleDecaps` | workload_service/server.go:532-586 | an uninterrupted decaps is a run made of its own request's steps; 200 exactly with a secret, which is the KEM key's; in a daemon that is in order each of 200, 400, 404 and 500 is given exactly in its case |
| `WorkloadServer.Server.HandleDestroy` | workload_service/server.go:771-805 | an uninterrupted destroy is such a run; exactly the named KEM key, its binding key and its mapping go and all others stay; each of 204, 404 and 500 is given exactly in its case |
| `WorkloadServer.Server.MakeKem` | workload_service/server.go:625-630 | the KEM step over the real registry is the machine's step |
| `WorkloadServer.Server.SealAtKps` | workload_service/server.go:561-566 | the reseal step through the 32- and 48-byte buffers is the machine's step |
| `WorkloadServer.Server.OpenAtWsd` | workload_service/server.go:568-573 | the open step through the 32-byte buffer is the machine's step |
| `WorkloadServer.Server.DestroyAtKps` | workload_service/server.go:791 | the KPS half is the machine's step: it removes exactly the named key if reachable, and its error is characterised |
| `WorkloadServer.Server.DestroyAtWsd` | workload_service/server.go:792 | the WSD half likewise |
| `WorkloadServer.Server.CleanupState` | workload_service/server.go:1002-1011 | the map is emptied whether or not DestroyAllKeys succeeds, the registry exactly if it does; this is the machine's lock, wipe and reset |
| `WorkloadServer.Server.SettleBeat` | workload_service/server.go:956-990 | what follows a beat is a run of the machine: cleanup exactly on giving up or on a changed token, the token cached exactly on an answer |
| `WorkloadServer.Server.PerformHeartbeat` | workload_service/server.go:945-998 | for every series of attempts, with the KPS restarting any number of times before any of them and wipes that succeed or fail: a run of the machine with those restarts in it; in terms of the attempts, a token reached is cached and cleans up exactly if it differs from the cached one, failing through to the cap cleans up, and anything else changes nothing |
| `WorkloadServer.Server.HandleEnumerateKeys` | workload_service/server.go:680-715 | answers 200 with the first page of the KPS's listing, the same for a remote and an in-process KPS; every live key is shown exactly when they all fit the page |
| `WorkloadServer.FirstPageNamesAllIff` | workload_service/server.go:680-715 | the handles of a first page name every live key exactly when there are no more than the page holds |
| `EnumerateLimit.LargeWorkloadIsNotShownAll` | workload_service/server.go:680-715 | there is a run of 10001 generates after which every first page leaves out a live key that the workload generated |
| `X25519.Agreement` | km_common/src/crypto/x25519.rs:53-149 | for all ephemeral and recipient keys, encapsulation succeeds and decapsulation derives the same secret |
| `Rfc9180.DecapsFollowsRfc9180` | km_common/src/crypto/x25519.rs:116-149 | decapsulation is Decap of section 4.1 of RFC 9180, written with text labels and I2OSP, wherever that is defined, and a decapsulation failure elsewhere |
| `Rfc9180.EncapFollowsRfc9180` | km_common/src/crypto/x25519.rs:53-96 | encapsulation is Encap of section 4.1 of RFC 9180, for a supplied or drawn ephemeral key |
| `X25519.ExtractAndExpandInjective` | km_common/src/crypto/x25519.rs:187-209 | equal derived secrets force equal Diffie-Hellman values and equal contexts |
| `X25519.SecretBindsExchange` | km_common/src/crypto/x25519.rs:116-149 | equal decapsulated secrets force equal enc, recipient public key and Diffie-Hellman value |
| `X25519.Decaps` | km_common/src/crypto/x25519.rs:116-149 | with a 32-byte key it succeeds exactly for a 32-byte enc that is not rejected by the curve, with a 32-byte secret |
| `X25519.OpensExactlyWhereSealed` | km_common/src/crypto/x25519.rs:19-50 | a sealed box opens exactly for the private key it was sealed to and the same aad, and yields the plaintext |
| `X25519.OpenedWasSealed` | km_common/src/crypto/x25519.rs:151-184 | whatever opens is a box sealed to that key in that context |
| `DecapsContext.AadInjective` | workload_service/server.go:524-530 | distinct (handle, algorithm) pairs have distinct contexts, over all integers and all UUIDs |
| `DecapsContext.ContextShape` | workload_service/server.go:524-530 | the context's exact prefix and separators, and the handle's lower-case dashed form |
| `Handles.UuidRoundTrip` | workload_service/server.go:233-237 | a handle survives printing and parsing |
| `Handles.ParsedPrintsBack` | workload_service/server.go:233-237 | only a handle's own text, up to the case of its digits, is read as that handle |
| `Custody.PipelineDeliversSecret` | key_protection_service/key_custody_core/src/lib.rs:139-174 | for a tied pair and any encapsulation, resealing succeeds exactly when decapsulation does; the box opens in its own context to that secret and in no other context |
| `Custody.PipelineDeliversClientSecret` | workload_service/key_custody_core/src/lib.rs:138-153 | a client's encapsulation comes back through reseal and open as the client's secret, the buffer sizes being right |
| `Custody.BoxOpensOnlyInItsContext` | workload_service/server.go:555-572 | a box resealed for one handle and algorithm opens for exactly that handle and algorithm |
| `Custody.RunGenerateBinding` | workload_service/key_custody_core/src/lib.rs:21-92 | the registry gains exactly the new id, with its lifetime, and every other id keeps its record, even if the output length is then refused; each status is given exactly for its cause |
| `Custody.RunGenerateKem` | key_protection_service/key_custody_core/src/lib.rs:21-106 | likewise for KEM keys, bound to the given binding key, whose length is checked first |
| `Custody.RunDestroy` | key_protection_service/key_custody_core/src/lib.rs:122-136 | the key is gone; not found is reported exactly when it was absent |
| `Custody.RunDecapAndSeal` | key_protection_service/key_custody_core/src/lib.rs:139-174 | buffers hold the resealed secret on success and are untouched on every failure |
| `Custody.RunOpen` | workload_service/key_custody_core/src/lib.rs:183-225 | the buffer holds the plaintext on success and is untouched on every failure |
| `KeyTypes.CreateKey` | km_common/src/key_types.rs:177-220 | succeeds exactly for the supported suite, available protected memory and an expiry that fits; the record expires exactly the lifespan after its creation, and its public key belongs to its private key |
| `KeyTypes.KeyRegistry.AddKey` | km_common/src/key_types.rs:63-66 | the new contents; keys stay filed under their own ids |
| `KeyTypes.KeyRegistry.RemoveKey` | km_common/src/key_types.rs:68-71 | the new contents and the removed record, expired or not |
| `KeyTypes.KeyRegistry.RemoveAllKeys` | km_common/src/key_types.rs:73-76 | the registry is empty |
| `KeyTypes.KeyRegistry.GetLive` | km_common/src/key_types.rs:78-87 | the record if present and unexpired |
| `KeyTypes.KeyRegistry.Sweep` | km_common/src/key_types.rs:100-103 | the loop, visiting keys in any order, leaves exactly the records whose deadline is past the sample, unchanged |
| `Reaper.ReaperTransparent` | km_common/src/key_types.rs:90-135 | at every point of every run with stale sweep samples, lookups and listings answer as in a registry never swept, a sweep takes no live record, and a removal may miss only an expired one |
| `Reaper.SweepsReap` | km_common/src/key_types.rs:100-103 | at every sweep of every run, exactly what outlives the sample is left |
| `Reaper.Perform` | km_common/src/key_types.rs:63-107 | each operation of such a run is the registry's own |
| `Listing.ListAllKeys` | km_common/src/key_types.rs:110-135 | for every hash-map order the result is the asked slice of the one (created_at, id)-ordered sequence of unexpired records, with its length |
| `Listing.ListingUnique` | km_common/src/key_types.rs:119-125 | a registry has only one listing |
| `Listing.PageInOrder` | km_common/src/key_types.rs:119-132 | a page holds unexpired records, each once, by creation time and then by id |
| `Listing.ListingExists` | km_common/src/key_types.rs:110-135 | every registry has a listing |
| `Listing.PagesConcatenate` | km_common/src/key_types.rs:127-132 | pages of any positive size concatenate to the listing, each record once |
| `Listing.WalkOverChangesIsStable` | km_common/src/key_types.rs:110-135 | a page walk over a registry that changes between reads, each at its own clock, repeats, skips and moves nothing as long as nothing listed goes and what is new was created later; it is finished exactly when it holds the last read's whole listing |
| `Listing.WalkIsStable` | km_common/src/key_types.rs:119-134 | while listings grow only at the end, what a walk has read is a slice of the last listing, all the rest of it exactly when has_more is false |
| `Listing.PositionsStableIff` | km_common/src/key_types.rs:119-125 | between two listings no position moves exactly when nothing listed is lost and everything new sorts later |
| `Listing.LaterAdditionsAreStable` | km_common/src/key_types.rs:110-135 | between two reads at their own clocks no position moves if nothing listed is removed or expires and everything new was created after everything listed |
| `Listing.HasMoreExact` | key_protection_service/key_custody_core/src/lib.rs:207-209 | offset plus count never overflows, the flag is true exactly when a further page holds a record, and a page is cut out of the listing without loss |
| `Enumerate.WriteEntries` | key_protection_service/key_custody_core/src/lib.rs:211-260 | the in-place loop fails exactly if a record does not fit; entries before it are written, all others unchanged |
| `Enumerate.Entry` | key_protection_service/key_custody_core/src/lib.rs:244-259 | a written entry cut to its length fields is the record's data, and its buffers are zero beyond |
| `Enumerate.EnumerateInto` | key_protection_service/key_custody_core/src/lib.rs:203-263 | count, flag and entries against the listing, failing exactly when a record on the page does not fit |
| `Enumerate.FfiEnumerate` | key_protection_service/key_custody_core/src/lib.rs:269-288 | over a KPS registry the exported call returns the count, never a status, and every entry up to it holds its record |
| `Enumerate.ReturnCodeFaithfulIff` | km_common/src/lib.rs:58-82 | the integer is read as it was meant exactly when the count is an int32 and the status an error |
| `Enumerate.EnumerationCodesAreFaithful` | key_protection_service/key_custody_core/kps_key_custody_core_cgo.go:88-99 | whatever an enumeration with an int32 limit returns is read as it was meant |
| `AlgorithmCodec.AlgorithmRoundTrip` | key_protection_service/key_custody_core/kps_key_custody_core_cgo.go:108-112 | every algorithm message, with known or unknown and negative enum numbers, is read back as it was written |
| `Enumerate.ReadEntries` | key_protection_service/key_custody_core/kps_key_custody_core_cgo.go:100-121 | the Go loop recovers each record's data, and its decoding error is never returned |
| `Enumerate.EnumerateKemKeys` | key_protection_service/key_custody_core/kps_key_custody_core_cgo.go:78-124 | for every int32 limit and offset: refused exactly when out of range, never a status error, otherwise the page of the listing and whether records remain |
| `Backoff.RunBeat` | workload_service/server.go:945-998 | the loop's waits and ending for every series of attempts |
| `Backoff.BeatIs` | workload_service/server.go:945-998 | the whole outcome of every beat from its attempts: waits and ending, for a token, a stop, a give-up or attempts running out |
| `Backoff.ScheduleIff` | workload_service/server.go:991-994 | the waits are min(initial·2^i, max) exactly when the last doubling fits int64 |
| `Backoff.GivesUpIff` | workload_service/server.go:986-990 | cleanup is reached exactly by k+1 uncancelled failures in a row, k least with initial·2^k at least max |
| `Backoff.AnswersIff` | workload_service/server.go:956-970 | a beat is answered by a token exactly if an attempt it reaches brings it |
| `Backoff.CancelledIff` | workload_service/server.go:981-985 | a beat is cancelled exactly by a stop after an attempt it reaches |
| `Backoff.GiveUpCost` | workload_service/server.go:945-998 | k+1 waits, each min(initial·2^i, max), in all initial·(2^k−1)+max, below three times the cap |
| `Backoff.DefaultsDoNotOverflow` | workload_service/server.go:45-46 | the default schedule stays within int64 and reaches its cap after seven doublings |
| `Backoff.DefaultsGiveUpAfter255Seconds` | workload_service/server.go:45-46 | eight failures and 255 seconds with the defaults |
| `Lifespan.LifespanHonest` | workload_service/server.go:844-850 | reports start at the requested lifespan and never grow, the claim fits int64, never overstates, and falls short by under a second below the cap |
| `RemoteKps.RemoteAgreesIff` | key_protection_service/grpc_server.go:49-66 | status to gRPC code to status gives the in-process HTTP status under every map order exactly when the tree carries at most one code |
| `RemoteKps.ChainsCarryOneCode` | km_common/proto/status.go:18-44 | a chain of wraps of any depth carries at most one code |
| `RemoteKps.HttpStatusOfChain` | workload_service/server.go:501-522 | a chain of wraps around a status is answered with that status's number, and one around none with 500 |
| `RemoteKps.ErrorsAreNotSuccesses` | workload_service/server.go:501-522 | no error is answered as a success, and 500 is given exactly if no listed status is in the tree |
| `RemoteKps.HttpStatusOfTrees` | workload_service/server.go:501-522 | wrapping changes no answer, and two joined errors are answered as whichever ranks first |
| `RemoteKps.ClientReadsCodes` | workload_service/server.go:187-215 | each gRPC code, however deeply wrapped, is answered with its own number; errors without a code pass through |
| `RemoteKps.JoinIsSymmetric` | workload_service/server.go:799-802 | the status of a destroy does not depend on the order of its two errors |
| `RemoteKps.RemoteDestroyAgrees` | workload_service/server.go:791-802 | translating the KPS half leaves the joined status as it was |
| `RemoteKps.GrpcCodeFromError` | key_protection_service/grpc_server.go:59-66 | the loop over the table in any order finds the first entry the error matches |
| `RemoteKps.FromWire` | workload_service/server.go:239-268 | the client's loop fails exactly if a handle does not parse and otherwise recovers every key |
| `RemoteKps.RemoteEnumerate` | workload_service/server.go:239-268 | a valid request returns exactly what the KPS returned; an invalid one is refused; errors are translated |
| `RemoteKps.EnumerateBothWays` | key_protection_service/proto/api.proto:44-50 | for every int32 limit and offset and every table order, in-process and remote enumeration have the same HTTP status exactly on validated arguments, and then the same reply |
| `RemoteKps.StatusSurvivesFfi` | km_common/src/lib.rs:58-82 | a failure in the core reaches the daemon as the status it was |
| `RemoteKps.RemoteCallsRelay` | workload_service/server.go:217-306 | generate, decap-and-seal, destroy and get-key through gRPC reach the key that was named and return what the KPS returned, errors alone being translated |
| `RemoteKps.RelayedStatusAgrees` | workload_service/server.go:187-215 | for every result whose error is a chain around at most one status, remote and in-process HTTP statuses are equal under every table order |

## Left out

- BoringSSL: X25519 field arithmetic, scalar clamping, HKDF and AES-GCM are symbolic terms; HKDF and AEAD are taken as ideal, and which encodings are of small order is a parameter.
- Raw pointers, null checks, cgo marshalling, panics caught at the FFI and generated headers.
- Protected memory, zeroization and redaction; only that protected memory may be unavailable is modelled.
- HTTP, JSON and protobuf parsing of requests. Handles arrive parsed; of the forms the Go parser accepts only the canonical one is modelled, which is the one both sides print.
- Unknown fields and other wire types in the algorithm message, which the core never writes.
- Field validation of RPCs other than enumerate, which only asks for fields that the daemon always sends.
- Replies to enumerate and get-key are not among the messages that Secrecy observes; they hold public keys, handles and numbers only.
- The transport between daemon and KPS: a lost reply is a failed step together with a stray call that may take effect at any time.
- Restart of the workload daemon, which loses its registry and map together.
- The heartbeat's 30-second period and its timeouts: in the state machine a heartbeat may succeed or give up at any time; the backoff loop is proved separately and tied in by PerformHeartbeat.
- A failed generate is not claimed to leave no trace: a wrong output length is noticed after the key is registered, and a failed KEM step leaves its binding key to expire.
- Listing.ListAllKeys: sorting is by insertion, since the order is total and has one result; the library's sort is not modelled.
- WorkloadServer.Server.PerformHeartbeat: states one beat running alone with its KPS restarting; other handlers between its steps are runs of the state machine.
- WorkloadServer.Server.HandleDecaps: states one handler running alone; interleavings with other handlers are runs of the state machine.
- Enumeration of binding keys, key claims of binding keys and GetKEMKey's buffers, which repeat the shapes proved here.
- Floating-point expiration times, wall clocks, telemetry, attestation, the agent, images and build scripts.
