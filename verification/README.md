# Causal broadcast and restore orchestration, verified

GAIA-Server lets cores exchange messages through a vector-clock broadcast layer and brings nodes back
through a multi-step restore whose last step promotes trust in etcd. This project models both and proves
what they guarantee over whole runs. Verify it with `dafny verify dfyconfig.toml`.

## The broadcast layer

`send` bumps the local clock entry and stamps a copy of the clock on the message. `receive` puts a message
in a hold queue and drains the queue to a fixed point; a message is delivered when its sender's counter is
the next one and no other entry is ahead of the local clock. Delivery raises the sender's entry only.
Health messages skip the test and the queue.

| file | content |
|---|---|
| `VectorClocks.dfy` | clocks, messages, the deliverability test, the one-entry update and the full merge |
| `DeliveryChains.dfy` | sequences of messages each of which passes the test in its turn: the theory used everywhere |
| `HoldQueues.dfy` | one sweep, the drain, and what a drain guarantees |
| `Endpoints.dfy` | an endpoint as a value, and the invariant of every run |
| `EndpointRuns.dfy` | theorems about one endpoint under arbitrary inbound traffic |
| `DeliveryOrder.dfy` | in which order one receive delivers, round after round over the queue |
| `Confluence.dfy` | independence of arrival order |
| `CausalBroadcast.dfy` | the class with its fields, nested loops and delivery log, proved against the functions |
| `Networks.dfy` | any number of endpoints over a network that delays, reorders, duplicates and loses |
| `NetworkMoments.dfy` | what every run of a network keeps about the moments of sending and delivering |
| `CausalOrder.dfy` | happens-before, and what vector clocks say of it |
| `CausalDelivery.dfy` | causal delivery over whole runs, and exactly when health traffic ends it |
| `Completeness.dfy` | who has delivered everything it received |
| `Quiescence.dfy` | exactly when a held message can become ready without being delivered |
| `HealthBoundary.dfy` | gap-free delivery with health traffic, and runs in which health traffic ends the guarantees |

One notion carries the proofs. A *causal chain* is a sequence of messages each of which is deliverable at
the clock its predecessors leave. The sends and deliveries of one endpoint form such a chain, and so does
the order in which the whole network sends. `DeliveryChains.ClosedClockDominates` says that a clock at which
nothing of a pool is deliverable lies above everything chains of that pool can reach: applied to two arrival
orders it gives confluence, applied to the network's send order it gives completeness.

The code and its prose differ in one respect. The class comment (gaia_server/ipc/causal_broadcast.py:28-31)
speaks of every message, and the repository's document on inter-process communication counts health beacons
among the coherence-critical traffic that needs a causal envelope; in the code (lines 87-90) health messages
are exempt. The code is what is modelled.

The theorems over networks are about every run, health traffic included, and where it matters the condition
is exact, in both directions. Delivery is causal if and only if no health message runs ahead of the clock that
delivers it: a beacon that is repeated, or comes back to its sender, does no harm. Vector clocks characterise
happens-before if and only if nobody sends while its clock is behind a health message it delivered; the order
itself is strict in every run. Who has received everything has delivered it if and only if nothing it holds is
ready and no health message overtook a causal one. A held message is left ready if and only if a health message
(or, where messages may be forged, a send) raises just the entry it waits for. Every run without health traffic
meets the first three conditions and, in a closed network, the last. `HealthBoundary` and `Quiescence` give
runs in which causal delivery, completeness and quiescence are lost.

## The restore

A restore loads a manifest, checks its hash, attestation, payload, event tail and CRIU gate, and then writes
the node's trust key, over a split-brain token by compare-and-swap if the manifest has one. Many restores may
be under way at once.

| file | content |
|---|---|
| `Wrappers.dfy` | the optional value |
| `MetadataStore.dfy` | the etcd store as an atomic map: get, put, compare-and-swap |
| `RestoreModel.dfy` | manifests, the steps, and the whole restore as a function |
| `RestoreMeaning.dfy` | what a restore promises, on the stores' own keys and the manifest's own fields, and that the steps keep it |
| `RestoreOrchestrator.dfy` | the orchestrator as a class over the stores, proved against the function |
| `RestoreInterleaving.dfy` | any number of restores, a turn at a time, with anything happening in between |
| `Arbitration.dfy` | the account of writes, split-brain arbitration, the trust ceiling |
| `Evidence.dfy` | what was seen before a write, and what a manifest hash binds |
| `Serializability.dfy` | interleaved restores equal restores one after another |

`RestoreMeaning.dfy` writes every key, prefix, class and limit out a second time and names no step, so that the
steps are proved against a statement of their own; the theorems over runs are stated in its terms.

Every step of a restore is a turn of its own, those included that do not wait in the code: that only adds
interleavings. What the program takes from libraries (decoding, SHA-256, number parsing, text encoding) are
function values in a `Config` record, so every theorem holds for any of them; collision-freedom is assumed
only where it is said, and only of the two inputs at hand. A manifest is split into its own hash and a body with all other
fields, the body being what is hashed. Two points of the code decide details: a compare against a missing key
never matches, and `state_hash`, which the module comment lists among the validated hashes
(gaia_server/restore/orchestrator.py:12), is bound by the manifest hash but never compared with anything.

## Model

| member | source | states |
|---|---|---|
| VectorClocks.CheapUpdateIsMergeIff | gaia_server/ipc/causal_broadcast.py:98-118 | raising only the sender's entry equals merging the whole vector if and only if no other entry is news, which is the second half of the deliverability test |
| VectorClocks.DeliverableIff | gaia_server/ipc/causal_broadcast.py:98-118 | a message passes the test if and only if it is its sender's next one and raising one entry loses nothing of its vector |
| DeliveryChains.NoInversion | gaia_server/ipc/causal_broadcast.py:98-118 | of two messages that passed the test, the later is never already reflected in the earlier |
| DeliveryChains.CountersConsecutive | gaia_server/ipc/causal_broadcast.py:100-118 | the counters delivered from a sender are exactly the next consecutive numbers |
| DeliveryChains.SlotFilled | gaia_server/ipc/causal_broadcast.py:100-118 | every counter up to the clock belongs to some delivered message |
| DeliveryChains.SlotUnique | gaia_server/ipc/causal_broadcast.py:100-118 | and to only one |
| DeliveryChains.CheapRunIsMergeRun | gaia_server/ipc/causal_broadcast.py:98-118 | over a whole chain one-entry updates lose nothing against full merging |
| DeliveryChains.ClosedClockDominates | gaia_server/ipc/causal_broadcast.py:98-139 | a clock at which nothing of a pool is deliverable bounds every clock reachable by delivering from that pool |
| HoldQueues.DrainMeaning | gaia_server/ipc/causal_broadcast.py:126-139 | for any clock and queue the drain ends, delivers each message only when deliverable, loses and invents nothing, keeps the queue's order and leaves nothing deliverable |
| CausalBroadcasts.CausalBroadcast.TryDeliverBuffered | gaia_server/ipc/causal_broadcast.py:126-139 | the nested loops compute that drain in place: clock, queue, log |
| CausalBroadcasts.CausalBroadcast.IsDeliverable | gaia_server/ipc/causal_broadcast.py:98-111 | the loop over the vector decides the deliverability test |
| CausalBroadcasts.CausalBroadcast.Deliver | gaia_server/ipc/causal_broadcast.py:113-119 | raises one entry and appends one id to the log, nothing else |
| CausalBroadcasts.CausalBroadcast.Send | gaia_server/ipc/causal_broadcast.py:62-79 | one more of the own count and no other entry changed; the message has the kind and id asked for, this actor as source and a copy of the new clock; the endpoint invariant is kept |
| CausalBroadcasts.CausalBroadcast.Receive | gaia_server/ipc/causal_broadcast.py:81-92 | the object's new state is that of the receive characterised by ReceiveInRounds and HealthGoesThrough; the endpoint invariant is kept |
| CausalBroadcasts.CausalBroadcast.constructor | gaia_server/ipc/causal_broadcast.py:46-52 | a fresh endpoint satisfies the invariant |
| Endpoints.ExecSound | gaia_server/ipc/causal_broadcast.py:62-139 | every run keeps: the clock is what the history left, each causal event passed the test in its turn, each sent message carries the clock of its moment, received = delivered + held |
| DeliveryOrder.ReceiveInRounds | gaia_server/ipc/causal_broadcast.py:91-139 | a message of any kind but health goes behind what is held; the queue is gone through front to back, round after round, a message being taken exactly if deliverable at the moment it is come to, until a round would take nothing; log, queue and clock are those of that |
| DeliveryOrder.ReadyKeepTheirOrder | gaia_server/ipc/causal_broadcast.py:91-139 | of two messages one receive delivers, one that was ready beforehand is logged before any that stands behind it in the queue |
| DeliveryOrder.HealthGoesThrough | gaia_server/ipc/causal_broadcast.py:87-90 | a health message is logged at once, nothing held moves, and at most its sender's entry rises, to its counter |
| EndpointRuns.SentAsAsked | gaia_server/ipc/causal_broadcast.py:62-79 | in every run the messages sent are those asked for, one for each send, in order, with kind, id and source |
| EndpointRuns.Conservation | gaia_server/ipc/causal_broadcast.py:87-92 | in any run, health and duplicates included, received equals delivered plus held as multisets and the queue is an order-preserving subsequence of the arrivals |
| EndpointRuns.NoInversionInAnyRun | gaia_server/ipc/causal_broadcast.py:87-118 | under arbitrary traffic no causal message is delivered after one that reflects it, none twice, and counters stay within the clock |
| EndpointRuns.GapFreeFifo | gaia_server/ipc/causal_broadcast.py:100-119 | with no inbound health message the counters delivered from each other actor are exactly 1, 2, ..., clock[s] |
| EndpointRuns.ClockIsJoin | gaia_server/ipc/causal_broadcast.py:67-118 | with no inbound health message the clock is the join of all vectors sent and delivered |
| EndpointRuns.StaleForever | gaia_server/ipc/causal_broadcast.py:131-139 | clocks never decrease; a message whose slot has passed is never delivered and, once held, never leaves the queue |
| Confluence.FinalClockIsLeast | gaia_server/ipc/causal_broadcast.py:91-139 | the final clock is the least one at which nothing received or held is deliverable |
| Confluence.ClockConfluence | gaia_server/ipc/causal_broadcast.py:91-139 | any two arrival orders of the same causal messages end with the same clock, however they are numbered |
| Confluence.OneDrain | gaia_server/ipc/causal_broadcast.py:91-139 | receiving one by one ends at the clock that a single drain of everything ends at |
| Confluence.DeliveryConfluence | gaia_server/ipc/causal_broadcast.py:91-139 | if no (source, counter) is contested, any two arrival orders also end with the same delivered and the same held messages, copies counted |
| Confluence.OrderIrrelevantIff | gaia_server/ipc/causal_broadcast.py:91-139 | from an empty queue, all arrival orders of any causal messages end alike if and only if no two different messages with one (source, counter) are both ready once everything else is drained |
| Networks.RunNetSound | gaia_server/ipc/causal_broadcast.py:62-139 | every run of a network keeps its invariant, in particular that the global order of sending is a causal chain |
| Networks.KnowledgeBound | gaia_server/ipc/causal_broadcast.py:67-118 | health included, no clock and no message in flight or held knows more of an actor than that actor has counted |
| Networks.ClocksGrow | gaia_server/ipc/causal_broadcast.py:67-118 | along every run clocks never decrease, and receiving never changes the receiver's own entry |
| NetworkMoments.RunMoments | gaia_server/ipc/causal_broadcast.py:62-139 | every run keeps: what is delivered claims no more of its receiver than that had counted by then, and what an endpoint had sent or delivered before a send was sent before it |
| CausalOrder.HappensBeforeIsStrict | gaia_server/ipc/causal_broadcast.py:62-118 | in every run happens-before is irreflexive, asymmetric and transitive |
| CausalOrder.VectorsNeverOverclaim | gaia_server/ipc/causal_broadcast.py:67-118 | in every run, m1.vc[src(m1)] <= m2.vc[src(m1)] implies that m1 happens before m2 |
| CausalOrder.ClocksCharacteriseIff | gaia_server/ipc/causal_broadcast.py:67-118 | in every run the converse holds too, for all sent messages, if and only if no endpoint ever sends while its clock is behind a health message it delivered |
| CausalOrder.ClosureIsDirectIff | gaia_server/ipc/causal_broadcast.py:62-118 | in every run a sender had itself sent or delivered all that happens before its message, if and only if whoever sends has sent or delivered all that the health messages it delivered claim to know |
| CausalDelivery.CausalDeliveryIff | gaia_server/ipc/causal_broadcast.py:62-139 | in every run: every delivery, other than at the sender of the cause, is preceded by all that happens before it, if and only if each health message came with a counter at most one ahead and no other entry ahead of the clock |
| CausalDelivery.CausalDelivery | gaia_server/ipc/causal_broadcast.py:62-139 | without health traffic, if m1 happens before m2, every delivery of m2 anywhere but at m1's sender is preceded by m1 in the delivery log |
| CausalDelivery.CausalOrderIsDirect | gaia_server/ipc/causal_broadcast.py:62-118 | where delivery is causal, m1 happens before m2 if and only if m2's sender had itself sent or delivered m1, if and only if m1.vc[src(m1)] <= m2.vc[src(m1)] |
| Completeness.CompletenessIff | gaia_server/ipc/causal_broadcast.py:81-139 | in every run, who has received everything has delivered everything if and only if nothing held is ready and no health message overtook a causal one there |
| Completeness.RestedKnowsAll | gaia_server/ipc/causal_broadcast.py:81-139 | who has received everything and holds nothing ready knows every actor's counter, holds only stale copies and echoes, and has delivered exactly what was not overtaken |
| Completeness.CompleteWithoutHealth | gaia_server/ipc/causal_broadcast.py:81-139 | without health traffic, who has received everything has delivered everything and knows every actor's counter |
| Quiescence.StepQuietIff | gaia_server/ipc/causal_broadcast.py:62-92 | where nothing held is ready, a send or a receive leaves something ready if and only if it is a send or a health delivery and a held message waits for just the entry it raises; a causal receive never does |
| Quiescence.EverQuietIff | gaia_server/ipc/causal_broadcast.py:62-92 | under arbitrary traffic, forged messages included, nothing held is ever ready if and only if no send and no health message ever raises an entry that a held message waits for |
| Quiescence.QuiescentAlwaysIff | gaia_server/ipc/causal_broadcast.py:62-92 | in a network nothing held is ever ready if and only if no health message reaches an endpoint that holds something waiting for it; sends never enable one |
| Quiescence.QuiescentAlways | gaia_server/ipc/causal_broadcast.py:62-92 | without health traffic no held message is ready in any reachable state |
| Quiescence.ForgedMessageIsLeftReady | gaia_server/ipc/causal_broadcast.py:62-92 | a run in which a forged message is held and the receiver's own send makes it ready without a drain |
| HealthBoundary.GapFreeIffHealthInTurn | gaia_server/ipc/causal_broadcast.py:87-104 | in any run the log is free of gaps and repeats for all other actors if and only if each of their health messages came with the next counter |
| HealthBoundary.HealthStrandsMessage | gaia_server/ipc/causal_broadcast.py:87-104 | a run in which a health message overtakes a causal one, which is then received but never delivered in any continuation |
| HealthBoundary.HealthOvertakesCause | gaia_server/ipc/causal_broadcast.py:87-90 | a run in which a health message is delivered without what it depends on |
| HealthBoundary.HealthLeavesReadyMessage | gaia_server/ipc/causal_broadcast.py:87-90 | a run in which a health delivery makes a held message ready and no drain follows |
| MetadataStores.EtcdMetadataStore.CompareAndSwap | gaia_server/storage/etcd.py:56-76 | succeeds exactly if the key exists with the expected value, and writes only then |
| MetadataStores.FullKeyMeaning | gaia_server/storage/etcd.py:32-33 | the key in etcd is the namespace and the given key without its leading slashes |
| RestoreModel.KeysApart | gaia_server/restore/orchestrator.py:40-42 | trust keys, manifest keys and attestation keys never coincide, whatever the names in them |
| RestoreModel.TrustKeyInjective | gaia_server/restore/orchestrator.py:291 | different nodes have different trust keys |
| RestoreModel.PathSetsAgree | gaia_server/restore/orchestrator.py:174-305 | the two separately written path sets agree: attestation is demanded of exactly the paths whose granted class ignores the requested one |
| RestoreModel.EventsAfterMeaning | gaia_server/storage/jetstream.py:40-79 | the replayed events are those after the cursor, in stream order and with their repeats: all of them, or as many as the limit allows |
| RestoreMeaning.HashAcceptedIff | gaia_server/restore/orchestrator.py:148-157 | a manifest hash is accepted if and only if it is some prefix followed by the computed hash |
| RestoreMeaning.ReadCount | gaia_server/storage/jetstream.py:40-79 | a read returns as many events as there are places after the cursor in the stream, up to the limit |
| RestoreMeaning.ChecksIffWarranted | gaia_server/restore/orchestrator.py:78-93 | the checks pass with a given manifest, payload and count if and only if the stores hold what is demanded under the literal keys: a fitting hash, an attestation, a payload of the declared hash, between one and a thousand events |
| RestoreMeaning.RestoreSucceedsIff | gaia_server/restore/orchestrator.py:69-109 | a restore succeeds if and only if the stores warrant it and the trust key may be written; it then writes the class the manifest earns to the node's trust key and reports that class, the id asked for and the manifest's node and path; otherwise it changes nothing |
| RestoreMeaning.RaisesFirstFault | gaia_server/restore/orchestrator.py:69-326 | a restore raises an error if and only if that fault is there and none that is looked for earlier; without any fault it succeeds |
| RestoreOrchestrators.RestoreOrchestrator.PromoteTrustStep | gaia_server/restore/orchestrator.py:279-326 | succeeds if and only if there is no token or the literal trust key holds it; then that key, and no other, holds the class the path earns, which is returned |
| RestoreOrchestrators.RestoreOrchestrator.RestoreNode | gaia_server/restore/orchestrator.py:69-109 | the whole restore on the object: on success the stores warranted it, the result reports what was loaded and its class is what was written to its node's trust key; on failure nothing is changed and the error is the first fault |
| RestoreInterleaving.SevenTurns | gaia_server/restore/orchestrator.py:78-96 | whatever is interleaved, a restore given seven turns has ended, and none succeeds on fewer |
| Serializability.InterleavedIsSerial | gaia_server/restore/orchestrator.py:69-109 | however restores are interleaved, stores, results and errors are those of running them one at a time in the order in which they end |
| Serializability.EndOrderIsPromotionOrder | gaia_server/restore/orchestrator.py:309-320 | for successful restores that order is the order of their promotions |
| Serializability.ChecksReadInputs | gaia_server/restore/orchestrator.py:115-254 | the checks depend on nothing that a promotion writes |
| Arbitration.OneWriteEach | gaia_server/restore/orchestrator.py:279-326 | in every run a restore that raised or has not ended has written nothing, and one that succeeded exactly its node's trust key, with the class its manifest earns |
| Arbitration.SplitBrainSingleWinner | gaia_server/restore/orchestrator.py:307-320 | over every interleaving, if no restore writes the token's own encoding to the key, at most one restore for a node succeeds with the token; its write is the first to the key, which held the token at the start |
| Arbitration.OthersEndInError | gaia_server/restore/orchestrator.py:307-320 | and every other one that carries the token, given its seven turns, has ended in an error without a write |
| Arbitration.TokenWinsIff | gaia_server/restore/orchestrator.py:307-320 | over every interleaving and for every token, a checked restore succeeds at its turn if and only if no restore has written the key and it held the token at the start, or the last restore to write it wrote that token's encoding |
| Arbitration.SecondClaimWinsIff | gaia_server/restore/orchestrator.py:307-320 | over every interleaving, after one restore has won with a token, a second one with it succeeds if and only if the last write to the key was that token's encoding |
| Arbitration.TrustCeiling | gaia_server/restore/orchestrator.py:291-320 | in every run a trust key holds, for its last writer, degraded on the cross-host, stateful and CRIU paths, quarantined on a quarantined foreign host, and elsewhere the class requested; where classes are stored apart, degraded and quarantined are held only so |
| Evidence.CheckBeforeWrite | gaia_server/restore/orchestrator.py:78-96 | in every run, whatever else happens to the stores, a write is preceded, in order, by a signed manifest, its attestation, its payload and its event tail under their literal keys, the trust key may then be written, and it is all that changes |
| Evidence.SuccessWasVouched | gaia_server/restore/orchestrator.py:78-109 | every successful restore had seen all of that; its result reports it, and the class it reports is the one thing it wrote, to the trust key of the node it reports |
| Evidence.CrossHostWriterWasAttested | gaia_server/restore/orchestrator.py:174-305 | if a trust key's last writer came by a named path, the store held a key ending in its attestation reference under the attestations prefix at an earlier moment, and the trust key holds degraded or quarantined as that path demands |
| Evidence.HashBindsManifestAndPayload | gaia_server/restore/orchestrator.py:148-214 | two successful restores whose manifest hashes share their last 64 characters agree on every other field and, if a payload hash is declared, on the payload, barring a hash collision between the two |

## Left out

- DeliveryConfluence: asks that no slot is contested. From an empty queue that is exact (OrderIrrelevantIff); a claimant held before the first arrival stands in front of the queue and may win in every order, so with held messages only this direction is stated. The clock agrees in any case (ClockConfluence).
- Handlers, subscription, logging, payload contents, trace ids and the `dependencies` field of messages: delivery is an entry in the log. Handlers run under a lock that cannot be taken twice, so one that calls back into `send` or `receive` is not modelled.
- Message ids are parameters instead of random draws; nothing is assumed about them, not even that they differ.
- Iteration over a vector visits its entries in no particular order, which the result does not depend on.
- JSON, SHA-256, `int()` on the cursor text (with its removal of `seq:`) and text encoding are arbitrary functions in `Config`. `RestoreManifest`, `RestorePath` and `TrustClass` are declared in gaia_core, which is not part of this model; paths and classes the orchestrator does not name are `OtherPath` and `OtherClass`.
- Payload fetch reads one map from checkpoint id to bytes; a missing object raises `CheckpointNotFound`, standing for the storage client's own exception.
- Event replay reads the stream's sequence numbers as given; receive timeouts, decoding of events and a stream that is being written while it is read are left out.
- Time-to-live leases, `delete`, `get_prefix`, backend health and network errors of etcd: not used by the restore.
- A failing client call in the middle of a restore: it would end that restore without a write, like any other error.
- Token arbitration and the trust ceiling assume that nobody but restores writes trust keys; check-before-write, the account of writes and hash binding do not.
- Cryptographic profile and artifact signing are stubs with random keys; tenancy, planetary hub, health aggregation, telemetry, inference, settings, entrypoint, sandbox and manifests are single-branch or plumbing code.
