# Service head-state snapshot

A model of the service facade of a light blockchain node (`src/service.rs`).
The service owns the receiving end of the channel on which its background
tasks (network, synchronisation, block import, database, keystore) report
events. It caches five values: the best block number and hash, the finalized
block number and hash, and the number of network connections. Each call to
`next_event` pops the next event and refreshes the connection count from a
counter that the network task shares. A `NewChainHead` event overwrites the
best head and a `NewFinalized` event overwrites the finalized head. The other
two events change neither head. The event is then returned unchanged. The five
accessors read the cached values.

- `events.dfy`, module `Events`: the `Event` and `ChainHeadUpdate` enums, and
  the values they carry. `u64` is a range-checked integer. `H256` and
  `[u8; 32]` are 32 bytes each. `Multiaddr` is an opaque byte payload.
- `service.dfy`, module `Service`:
  - `Step` is the per-event update of the snapshot.
  - `Fold` is the left fold of `Step` over a sequence of consumed events.
  - `LastReported` is an independent reference definition: the block named by
    the latest event of a given kind.
  - Lemmas show that the fold keeps each head equal to the latest event of
    its kind, and the connection count equal to the latest counter reading.
  - The class `Service` has the source's fields. Its invariant `Valid()` says
    two things. First, the consumed events followed by the pending ones are
    exactly the channel's stream. Second, the cached fields equal the fold of
    the consumed events over the initial snapshot.
  - `NextEvent` is proved to keep that invariant. The accessors are functions
    over the object, and their contracts use the reference definition.

The shared atomic counter is a parameter of `NextEvent`: the value that the
relaxed load returns at that moment. The channel is the sequence of events
it will deliver, in arrival order, fixed when the service is built. When no
event is left, the channel is closed. The source then panics (`unwrap` on
`None`). The model returns `Failure(BackgroundTasksTerminated)` and leaves the
state unchanged.

## Model

| member | source | states |
|---|---|---|
| `Events.H256.Into` | src/service.rs:127 | the `H256` to `[u8; 32]` conversion is a byte-for-byte copy that loses nothing |
| `Service.Step` | src/service.rs:121-134 | one consumption sets the connection count to the counter reading. `NewChainHead` sets the best head to its number and hash, whatever its `head_update`, and keeps the finalized head. `NewFinalized` sets the finalized head and keeps the best head. `BlockAnnounceReceived` and `NewNetworkExternalAddress` keep both heads |
| `Service.LastReported` | src/service.rs:58-68 | reference definition of "latest block reported for a head": it is `None` exactly when no event of that kind occurs. Otherwise it names an event of that kind with no later event of the same kind |
| `Service.FoldAppend` | src/service.rs:116-137 | consuming one batch of events and then another gives the same snapshot as consuming their concatenation |
| `Service.FoldHead` | src/service.rs:58-68 | after any sequence of events, each cached head is the block named by the latest event of its kind, or the initial head if there was none. No other event ever touches it |
| `Service.FoldConnections` | src/service.rs:51-56 | after any sequence of events, the cached connection count is the counter value read at the latest consumption, or the initial count if nothing was consumed |
| `Service.FoldIgnoresHeadUpdate` | src/service.rs:125-128 | two event sequences that differ only in their `ChainHeadUpdate` classifications give the same snapshot |
| `Service.Service.constructor` | src/service.rs:42-72 | a new service holds the given snapshot and the whole stream still pending, with nothing consumed |
| `Service.Service.NextEvent` | src/service.rs:116-137 | on a closed (empty) channel, it fails with `BackgroundTasksTerminated` and changes nothing. Otherwise it returns the front event unmodified and removes only that event. The remaining events keep their order. The new snapshot is `Step` of the old one with that event and the counter reading. The invariant (the snapshot is the fold of all consumed events) is kept |
| `Service.Service.NumNetworkConnections` | src/service.rs:139-143 | returns the counter value read at the latest consumption, or the initial count |
| `Service.Service.BestBlockNumber` | src/service.rs:145-149 | returns the number in the latest consumed `NewChainHead`, or the initial best number |
| `Service.Service.BestBlockHash` | src/service.rs:151-155 | returns the hash in the latest consumed `NewChainHead`, or the initial best hash |
| `Service.Service.FinalizedBlockNumber` | src/service.rs:157-161 | returns the number in the latest consumed `NewFinalized`, or the initial finalized number |
| `Service.Service.FinalizedBlockHash` | src/service.rs:163-167 | returns the hash in the latest consumed `NewFinalized`, or the initial finalized hash |

## Left out

- `best_effort_block_hash` (src/service.rs:170-180) and the `to_database`
  sender. This is a round trip over an `mpsc` sender and a `oneshot` reply to
  the database task. The database task is not part of this model, so there is
  no logic on this path to state.
- The producers' side of the event channel. This covers asynchronous
  suspension while the channel is empty but open, bounded capacity and
  backpressure, and the interleaving of several producers. The model takes the
  stream as already ordered, so an empty pending sequence means the channel is
  closed.
- The `AtomicU64` shared with the network task, and its relaxed load. The
  value is an argument of `NextEvent`.
- `Service.Service.NextEvent`: in the source, a closed channel panics and the
  service is gone. The model instead returns an error value and leaves the
  object as it was.
- The thread pool kept alive by the service (`_threads_pool`). Also the
  builder and the `network_task`, `sync_task`, `block_import_task`,
  `database_task` and `keystore_task` submodules. These wire up tasks, and
  they are not part of this model. The constructor takes the initial snapshot
  that the builder would supply.
- The internal structure of `network::Multiaddr`, and of `H256` beyond its 32
  bytes. Both are foreign types.
