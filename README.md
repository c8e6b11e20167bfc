# Soroban oracle broker and subscriber, modelled in Dafny

Two Soroban smart contracts make up this oracle example.

- The **broker** (`OracleBrokerContract`) takes paid subscription requests for a topic. It answers a request from its cache when the topic has been published. Otherwise it parks the request's envelope in a per-topic queue. A whitelisted publisher later publishes data for the topic: the data is cached and the whole queue is handed back and removed.
- The **subscriber** (`OracleSubscriberContract`) accepts deliveries only from whitelisted brokers and stores the last data received per topic.

Each contract has an admin that can be set once, and a whitelist that only the admin can change.

## How the model is built

- `oracle.dfy` (module `Oracle`) holds the shared values:
  - `Bytes` and `Address`, treated as opaque values compared for equality;
  - the request `Envelope` (subscriber and broker address);
  - the error kinds, one per way a call can panic;
  - `Transition`, the result of a call together with the storage it leaves.
- `broker.dfy` (module `Broker`) and `subscriber.dfy` (module `Subscriber`) each model one contract at two levels.
  - **State level.** The instance storage is a datatype value (`BrokerState`, `SubscriberState`). Each entry point is a step function from the storage before the call to a `Transition`. A failed call keeps the old storage (`Reverts`), which is how the host treats a panic, a failed `assert!` or an `unwrap` of a missing entry. `Run` applies a sequence of calls (`Call`). The lemmas about reachable storage, the cache and the last write are proved over `Run`.
  - **Contract level.** A class (`OracleBrokerContract`, `OracleSubscriberContract`) holds the instance storage as map fields. It has one method per entry point that writes storage. Each method writes its fields directly, keeps the storage invariant `Valid()`, and is proved to return and leave exactly what the step function says. The subscriber's reads are `GetData` (a function) and `OnRequest` (a method that writes nothing).
- Both contracts keep the `DataKey` enum as separate map fields, one map per key variant. The broker keeps its envelope queues under the raw topic bytes. Its cache is under `DataKey::Topic(topic)`, a different key, so the queues and the cache are two maps.
- `require_auth` is modelled as membership in `auth`, the set of principals that authorised the call.
- The fee transfer is modelled as membership in `accepted`. This is the set of token transfers the fee token contract carries out in that call. A request must have `Transfer(subscriber, broker address, 10000000)` accepted.
- `reconcile_data` is the identity (`ReconcileData`). A receive therefore stores the delivered data unchanged, as `SyncReceiveStep` and `AsyncReceiveStep` state.

Consequences of the code that the lemmas make explicit:

- `on_publish` unwraps the topic's queue (crates/broker/src/lib.rs:91-93). A publish for a topic with no waiting request therefore fails, and its cache write is discarded with it.
- A successful publish removes the queue. A request for a cached topic never queues again. So every publish after the first successful one fails, and the first published value stays cached for good (`CacheIsPermanent`, `PublishSucceedsOnce`).
- The whitelist checks look only at whether the entry exists (the stored `bool` is discarded). Only `true` is ever written, so this is the same as reading the flag in every reachable storage (`RequirePublisherWhitelisted`, `Consistent`).

## Model

| member | source | states |
|---|---|---|
| `Broker.RequireAdminAuth` | crates/broker/src/lib.rs:130-136 | succeeds iff an admin is stored and it authorised the call; with no admin it fails on the missing entry, otherwise on the missing authorisation |
| `Broker.RequirePublisherWhitelisted` | crates/broker/src/lib.rs:123-128 | succeeds iff the publisher has a whitelist entry, whatever its value; the flag returned is `true` in every consistent storage |
| `Broker.SetAdminStep` | crates/broker/src/lib.rs:101-106 | succeeds iff no admin is stored, with no authorisation needed; then stores the given admin and changes nothing else; otherwise fails with the storage unchanged |
| `Broker.AllowPublisherStep` | crates/broker/src/lib.rs:108-113 | succeeds iff the stored admin authorised; then the publisher's entry is `true`, no other entry and no other storage changes; on failure nothing changes |
| `Broker.DenyPublisherStep` | crates/broker/src/lib.rs:115-120 | succeeds iff the stored admin authorised; then the publisher's entry is gone, no other entry and no other storage changes; on failure nothing changes |
| `Broker.SubscribeStep` | crates/broker/src/lib.rs:32-76 | succeeds iff the subscriber authorised and the 10000000 fee transfer to the broker went through; a cached topic returns its value and changes nothing; otherwise nothing is returned and the envelope is appended to the topic's queue (created if absent), which grows by one with earlier entries in order and no other queue, cache or whitelist change; on failure nothing changes |
| `Broker.PublishStep` | crates/broker/src/lib.rs:78-96 | succeeds iff the publisher has a whitelist entry and the topic has a queue; then returns exactly the stored queue, caches the data for the topic, removes that queue and changes nothing else; otherwise fails (whitelist first, then missing queue) with the cache write discarded |
| `Broker.StepKeepsConsistent` | crates/broker/src/lib.rs:66-95 | every call keeps the storage consistent: whitelist entries are `true`, no topic is both cached and queued, and no queue is empty |
| `Broker.RunKeepsConsistent` | crates/broker/src/lib.rs:32-120 | any sequence of calls keeps a consistent storage consistent |
| `Broker.ReachableIsConsistent` | crates/broker/src/lib.rs:32-120 | every storage a newly deployed broker reaches is consistent |
| `Broker.StepKeepsCache` | crates/broker/src/lib.rs:66-94 | in a consistent storage, no call changes or removes a cached value, and a cached topic gets no queue |
| `Broker.CacheIsPermanent` | crates/broker/src/lib.rs:68-94 | once a topic is cached, after any sequence of calls it is still cached with the same value and has no queue |
| `Broker.PublishSucceedsOnce` | crates/broker/src/lib.rs:86-95 | after a successful publish for a topic, every later publish for it, by anyone and after any calls, fails without changing the storage, and the first data stays cached |
| `Broker.SubscribeAfterPublishHitsCache` | crates/broker/src/lib.rs:66-75 | after a successful publish and any later calls, a request for the topic either fails or returns the published data, and never queues |
| `Broker.TwoSubscribesQueueInOrder` | crates/broker/src/lib.rs:34-41 | two paid requests for a topic that is neither cached nor queued leave the queue holding exactly the two envelopes, in call order |
| `Broker.SubscribeThenPublish` | crates/broker/src/lib.rs:65-95 | a paid request for an unpublished topic returns nothing; a whitelisted publish then returns exactly that envelope, caches the data and leaves no queue |
| `Broker.SetAdminOnce` | crates/broker/src/lib.rs:101-106 | a second `set_admin` fails with the admin of the first kept |
| `Broker.AllowThenDenyIsNoOp` | crates/broker/src/lib.rs:108-128 | allowing then denying a publisher that had no entry restores the storage exactly, so that publisher's publish still fails the whitelist check |
| `Broker.WhitelistNeedsAdmin` | crates/broker/src/lib.rs:108-120 | only an allow or deny call authorised by the stored admin changes the publisher whitelist |
| `Broker.StepQueuesOnlyPaidRequests` | crates/broker/src/lib.rs:50-75 | one call adds at most one copy of an envelope to a topic's queue, and only when the call is that envelope's request for the topic that its subscriber authorised and paid for |
| `Broker.QueuedEnvelopesWerePaidFor` | crates/broker/src/lib.rs:50-75 | after a sequence of calls, the copies of an envelope in a topic's queue number at most the copies before it plus the authorised, paid requests for it in the sequence: the fee is charged once per queued envelope |
| `Broker.ReachableQueuesArePaidFor` | crates/broker/src/lib.rs:50-75 | in a deployed broker, each queued copy of an envelope is matched by its own authorised, paid request, so every queued envelope has such a request |
| `Broker.PaidCountWitness` | crates/broker/src/lib.rs:50-63 | a positive count of paid requests names one of them in the sequence |
| `Broker.OracleBrokerContract.constructor` | crates/broker/src/lib.rs:26-28 | a new broker has empty instance storage, which is consistent |
| `Broker.OracleBrokerContract.SetAdmin` | crates/broker/src/lib.rs:101-106 | returns and leaves what `SetAdminStep` says, and keeps the storage consistent |
| `Broker.OracleBrokerContract.AllowPublisher` | crates/broker/src/lib.rs:108-113 | returns and leaves what `AllowPublisherStep` says, and keeps the storage consistent |
| `Broker.OracleBrokerContract.DenyPublisher` | crates/broker/src/lib.rs:115-120 | returns and leaves what `DenyPublisherStep` says, and keeps the storage consistent |
| `Broker.OracleBrokerContract.OnSubscribe` | crates/broker/src/lib.rs:32-76 | returns and leaves what `SubscribeStep` says for the broker's own address, and keeps the storage consistent |
| `Broker.OracleBrokerContract.OnPublish` | crates/broker/src/lib.rs:78-96 | returns and leaves what `PublishStep` says, and keeps the storage consistent; the cache write takes effect only when the queue exists |
| `Subscriber.RequireAdminAuth` | crates/subscriber/src/lib.rs:93-99 | succeeds iff an admin is stored and it authorised the call; with no admin it fails on the missing entry, otherwise on the missing authorisation |
| `Subscriber.RequireBrokerWhitelisted` | crates/subscriber/src/lib.rs:101-106 | succeeds iff the broker has a whitelist entry, whatever its value; the flag returned is `true` in every consistent storage |
| `Subscriber.SetAdminStep` | crates/subscriber/src/lib.rs:58-63 | succeeds iff no admin is stored; then stores the given admin and changes nothing else; otherwise fails with the storage unchanged |
| `Subscriber.AllowBrokerStep` | crates/subscriber/src/lib.rs:65-70 | succeeds iff the stored admin authorised; then the broker's entry is `true` and nothing else changes; on failure nothing changes |
| `Subscriber.DenyBrokerStep` | crates/subscriber/src/lib.rs:72-77 | succeeds iff the stored admin authorised; then the broker's entry is gone and nothing else changes; on failure nothing changes |
| `Subscriber.SyncReceiveStep` | crates/subscriber/src/lib.rs:34-42 | succeeds iff the envelope's broker has a whitelist entry; then the topic holds the received data unchanged (reconciliation is the identity, lines 86-91), and no other topic, whitelist entry or admin changes; on failure nothing changes |
| `Subscriber.ReconcileData` | crates/subscriber/src/lib.rs:86-91 | the value to store is the received value itself; `SyncReceiveStep` and `AsyncReceiveStep` state independently that the topic then holds the delivered data unchanged |
| `Subscriber.AsyncReceiveStep` | crates/subscriber/src/lib.rs:44-53 | succeeds iff the envelope's broker has a whitelist entry and authorised the call; then stores the data exactly as the synchronous hook does; on failure nothing changes |
| `Subscriber.StepKeepsConsistent` | crates/subscriber/src/lib.rs:65-77 | every call keeps all broker whitelist entries `true` |
| `Subscriber.RunKeepsConsistent` | crates/subscriber/src/lib.rs:58-77 | any sequence of calls keeps a consistent storage consistent |
| `Subscriber.ReachableIsConsistent` | crates/subscriber/src/lib.rs:58-77 | every storage a newly deployed subscriber reaches is consistent |
| `Subscriber.AsyncAcceptedBySync` | crates/subscriber/src/lib.rs:34-53 | every delivery the asynchronous hook accepts is accepted by the synchronous hook too, with the same result and storage |
| `Subscriber.StepKeepsOtherData` | crates/subscriber/src/lib.rs:38-52 | a call that is not an accepted receive for a topic leaves that topic's stored data as it was |
| `Subscriber.OnlyReceivesWriteTopic` | crates/subscriber/src/lib.rs:38-52 | a sequence of calls with no accepted receive for a topic leaves that topic's stored data as it was |
| `Subscriber.NothingBeforeFirstReceive` | crates/subscriber/src/lib.rs:79-83 | in a deployed subscriber, before the first accepted receive for a topic, nothing is stored for it |
| `Subscriber.LastReceiveWins` | crates/subscriber/src/lib.rs:79-83 | after an accepted receive for a topic, the topic holds that receive's data until the next accepted receive for it |
| `Subscriber.OracleSubscriberContract.constructor` | crates/subscriber/src/lib.rs:16-18 | a new subscriber has empty instance storage, which is consistent |
| `Subscriber.OracleSubscriberContract.GetData` | crates/subscriber/src/lib.rs:79-83 | never fails and reads only; returns the stored data for the topic, or nothing when none is stored |
| `Subscriber.OracleSubscriberContract.OnRequest` | crates/subscriber/src/lib.rs:29-32 | writes nothing; succeeds iff the envelope's broker has a whitelist entry and the subscriber authorised; the whitelist is checked first |
| `Subscriber.OracleSubscriberContract.SetAdmin` | crates/subscriber/src/lib.rs:58-63 | returns and leaves what `SetAdminStep` says, and keeps the storage consistent |
| `Subscriber.OracleSubscriberContract.AllowBroker` | crates/subscriber/src/lib.rs:65-70 | returns and leaves what `AllowBrokerStep` says, and keeps the storage consistent |
| `Subscriber.OracleSubscriberContract.DenyBroker` | crates/subscriber/src/lib.rs:72-77 | returns and leaves what `DenyBrokerStep` says, and keeps the storage consistent |
| `Subscriber.OracleSubscriberContract.OnSyncReceive` | crates/subscriber/src/lib.rs:34-42 | returns and leaves what `SyncReceiveStep` says, keeps the storage consistent, and on success `GetData` reports the received data |
| `Subscriber.OracleSubscriberContract.OnAsyncReceive` | crates/subscriber/src/lib.rs:44-53 | returns and leaves what `AsyncReceiveStep` says, keeps the storage consistent, and on success `GetData` reports the received data |

## Left out

- The fee token contract is not part of this model. This includes its hard-coded address (crates/broker/src/lib.rs:51-58), balances, and how a transfer succeeds or fails. A call only states which transfers the token contract carries out (`accepted`).
- Soroban's authorisation framework (`require_auth`, signatures, nonces) is not part of this model. A call only states which principals authorised it (`auth`).
- The `oracle_broker` and `oracle_subscriber` macros and the `oracle::Events` trait come from soroban_kit, which is not part of this model. These generate the public entry points and the cross-contract calls. The model therefore does not say when the broker calls a subscriber's hooks, or who calls `on_request`. The subscriber's hooks are modelled as plain entry points.
- `oracle::Envelope` is modelled with its `subscriber` and `broker` addresses only, the two fields the contracts read.
- Storage serialisation, storage lifetimes, and the internals of `Bytes` and `Address` are not modelled.
- How the host reverts a failed call is not modelled. A failed call simply leaves the storage as it was.
- The commented-out limit on envelopes per topic (crates/broker/src/lib.rs:47) is not active code and is not modelled.
- Data reconciliation beyond the identity `reconcile_data` exists only in comments and is not modelled.
- Events, logging and gas are not modelled.
