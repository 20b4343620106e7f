# dl-srt-server relay core in Dafny

dl-srt-server is a live-stream relay. One SRT connection publishes a stream
under a stream id, and any number of subscriber connections receive copies of
it. This project models the part that decides who gets what:

- **the stream session**, current version (`src/core/StreamSession.cpp`). A
  session owns one publisher handler and a vector of subscriber handlers. A
  worker loop receives chunks of at most 1456 bytes from the publisher and
  sends each chunk to a snapshot of the subscribers. Subscribers whose send
  fails are disconnected and pruned. `cleanupSession` is guarded by an
  `isDisconnecting` latch.
- **the earlier stream session** (`oldCPP/src/core/StreamSession.cpp`). It adds
  a `cleanupDone` signal with `waitForCleanup`, and it reports the publisher's
  loss as a `StreamEvent` to a weakly held listener. Its receive may throw.
- **the stream manager** (`src/core/StreamManager.cpp`). It keeps two maps:
  stream id to session, and connection to session. It allows one publisher
  per stream id, attaches subscribers to existing streams, and removes
  sessions and streams. A session's publisher-failure callback is wired to
  `removeStream`.

## How it is modelled

- **Transport** (`transport.dfy`): a handler is an immutable `class` with a
  stream id. Handlers are compared by identity, as the source compares shared
  pointers. Payload bytes are opaque and are bounded by `BUFFER_SIZE = 1456`.
  `STREAM_ERROR` is `-1`.
- **Effects on handlers become logs.** Calls of `disconnect()` are appended
  to a `disconnected` log in the session. Calls of `send()` are appended to a
  `sent` log as a `Delivery` (recipient, bytes). The properties about who was
  disconnected and what was sent are then stated on these logs.
- **Session state.** Each session version is a `class` whose fields the
  methods update in place. Each method's `ensures` ties the new state to a
  transition function on an abstract `State` value. Lemmas state what the
  source promises about those functions.
- **Shared list operations** (`subscriber_list.dfy`):
  - `Erase` is the `erase(remove(...))` idiom.
  - `EraseAll` is the prune loop.
  - `Failed` is the list of failed sends.
  - `Deliveries` is one send pass.
  - `Keep` is an independent order-preserving filter that the prune is proved
    equal to.
- **The worker loop** is two steps, so that another thread's operation (for
  example `cleanupSession`) can run between them:
  - `ContinueLoop` is the loop head and the `isDisconnecting` check;
  - `HandleReceive` handles one receive result, then takes the snapshot, runs
    the send pass and prunes.
- **Inputs from outside become parameters:**
  - what `receive` returned (or that it threw);
  - what each `send` returned;
  - whether `join()` throws;
  - whether the caller is the worker thread;
  - whether the weak listener is still alive.
- **The manager** is a `class` with the two maps as `map` fields. An abstract
  `Registry` value carries the transitions, the invariants `Valid` (every key
  agrees with its session's stream id) and `Linked` (every connection points
  at the session registered under its stream id), and the lemmas about them.

## Model

| member | source | states |
|---|---|---|
| SubscriberList.Erase | src/core/StreamSession.cpp:64-67 | erasing never lengthens the vector |
| SubscriberList.EraseCount | src/core/StreamSession.cpp:64-67 | after the erase, h occurs zero times and every other handler as often as before |
| SubscriberList.EraseConcat | src/core/StreamSession.cpp:64-67 | erasing distributes over concatenation, so the survivors keep their order |
| SubscriberList.EraseAbsent | src/core/StreamSession.cpp:64-67 | erasing an unlisted handler leaves the vector unchanged |
| SubscriberList.EraseAll | src/core/StreamSession.cpp:142-148 | erasing each failed handler in turn never lengthens the vector; its meaning is pinned by EraseAllCount and EraseAllIsKeep |
| SubscriberList.EraseAllCount | src/core/StreamSession.cpp:139-149 | after the prune, a failed handler occurs zero times and any other handler as often as before |
| SubscriberList.EraseAllIsKeep | src/core/StreamSession.cpp:139-149 | erasing the failed handlers one after another equals one order-preserving filter |
| SubscriberList.Failed | src/core/StreamSession.cpp:126-137 | the failed list has at most one entry per snapshot entry |
| SubscriberList.FailedMember | src/core/StreamSession.cpp:131-136 | a handler is in the failed list exactly when one of its sends returned STREAM_ERROR |
| SubscriberList.Deliveries | src/core/StreamSession.cpp:127-131 | a pass makes one send per snapshot entry, in order, each with the same bytes |
| Session.StreamSession.constructor | src/core/StreamSession.cpp:24-29 | a new session is not running, not disconnecting, has no subscribers and no worker handle |
| Session.StreamSession.AddSubscriber | src/core/StreamSession.cpp:56-60 | the state moves by the addSubscriber transition |
| Session.StreamSession.RemoveSubscriber | src/core/StreamSession.cpp:62-69 | the state moves by the removeSubscriber transition |
| Session.StreamSession.RemoveAllSubscribers | src/core/StreamSession.cpp:71-78 | the loop disconnects each listed subscriber in order and then clears the vector |
| Session.StreamSession.StartPublishing | src/core/StreamSession.cpp:80-88 | returns true exactly when the session was not running; then running is set and a worker handle exists |
| Session.StreamSession.CleanupSession | src/core/StreamSession.cpp:35-54 | the state moves by the cleanup transition, including the join-throws path and the worker-thread path |
| Session.StreamSession.Destroy | src/core/StreamSession.cpp:31-54 | the destructor runs cleanup and releases the worker handle, detaching it if it is still joinable (corrected; see Findings) |
| Session.StreamSession.ContinueLoop | src/core/StreamSession.cpp:94-98 | the loop goes on exactly when running is set and disconnecting is not |
| Session.StreamSession.HandleReceive | src/core/StreamSession.cpp:100-149 | one iteration after receive: the failure path, the snapshot, the send pass and the prune |
| Session.StreamSession.SendToEach | src/core/StreamSession.cpp:126-137 | sends to every snapshot entry and collects the failed ones; sends nothing while disconnecting |
| Session.StreamSession.PruneFailed | src/core/StreamSession.cpp:139-149 | disconnects every failed entry and erases it from the vector |
| Session.AddSubscriberAppends | src/core/StreamSession.cpp:56-60 | appends exactly h at the end, without a duplicate check; nothing else changes |
| Session.RemoveSubscriberErasesAll | src/core/StreamSession.cpp:62-69 | h is gone and the others keep their order; h is disconnected once, even when it was not listed |
| Session.AddThenRemove | src/core/StreamSession.cpp:56-69 | adding an unlisted handler and then removing it restores the vector |
| Session.RemoveAllDisconnectsEach | src/core/StreamSession.cpp:71-78 | each listed subscriber is disconnected once per listing, and the vector ends empty; an empty vector changes nothing |
| Session.StartPublishingOnce | src/core/StreamSession.cpp:80-88 | the first call sets running and creates the worker handle; a second call changes nothing |
| Session.CleanupFirstCall | src/core/StreamSession.cpp:35-50 | the first call latches disconnecting, clears running, disconnects the subscribers and then the publisher, and drops the handle unless called from the worker |
| Session.CleanupJoinThrows | src/core/StreamSession.cpp:45-53 | when join throws, the handle stays and the publisher is not disconnected; the latches are still set |
| Session.CleanupIdempotent | src/core/StreamSession.cpp:36-38 | after the first call, any later call from any thread changes nothing |
| Session.CleanupTwiceDisconnectsPublisherOnce | src/core/StreamSession.cpp:31-50 | an explicit cleanup followed by the destructor's disconnects the publisher exactly once |
| Session.ReceiveFailureEndsLoop | src/core/StreamSession.cpp:101-113 | a failed receive ends the loop; the callback gets the publisher's stream id exactly when running is still set and a callback exists |
| Session.NothingSentWithoutTargets | src/core/StreamSession.cpp:121-130 | with an empty snapshot, or while disconnecting, nothing is sent and the loop goes on |
| Session.BroadcastSendsToEach | src/core/StreamSession.cpp:115-137 | a chunk goes, whole, to every snapshot subscriber, in snapshot order |
| Session.PruneRemovesExactlyFailed | src/core/StreamSession.cpp:126-149 | exactly the subscribers with a failed send are disconnected and removed; a subscriber stays exactly when none of its sends failed |
| Session.State.DestroyAsWritten | src/core/StreamSession.cpp:31-48 | the destructor as written terminates exactly when the handle exists and cleanup does not release it: cleanup already ran, the caller is the worker, or join throws |
| Session.DestroyOnWorkerAsWrittenTerminates | src/core/StreamSession.cpp:31-48 | a session destroyed on its own worker thread while the handle exists ends in std::terminate |
| Session.DestroyAgreesWithAsWritten | src/core/StreamSession.cpp:31-54 | wherever the destructor as written does not terminate, it equals the corrected destructor |
| Session.DestroyReleasesHandle | src/core/StreamSession.cpp:31-54 | the corrected destructor always releases the handle; on a first cleanup that completes, the subscribers and then the publisher are disconnected; after an earlier cleanup only the handle changes |
| LegacySession.NotifyDisconnect | oldCPP/src/core/StreamSession.cpp:107-116 | an event exists exactly when the listener is alive; it is PublisherDisconnected with the publisher's stream id and handler |
| LegacySession.StreamSession.constructor | oldCPP/src/core/StreamSession.cpp:24-28 | a new session has every flag cleared and empty lists, so cleanupDone agrees with the latch |
| LegacySession.StreamSession.AddSubscriber | oldCPP/src/core/StreamSession.cpp:73-77 | the state moves by the addSubscriber transition |
| LegacySession.StreamSession.RemoveSubscriber | oldCPP/src/core/StreamSession.cpp:79-86 | the state moves by the removeSubscriber transition |
| LegacySession.StreamSession.RemoveAllSubscribers | oldCPP/src/core/StreamSession.cpp:88-95 | the loop disconnects each listed subscriber and then clears the vector |
| LegacySession.StreamSession.StartPublishing | oldCPP/src/core/StreamSession.cpp:97-105 | returns true exactly when the session was not running |
| LegacySession.StreamSession.CleanupSession | oldCPP/src/core/StreamSession.cpp:35-64 | the state moves by the corrected cleanup transition (see Findings) |
| LegacySession.StreamSession.WaitForCleanup | oldCPP/src/core/StreamSession.cpp:57-71 | under the class invariant that cleanupDone agrees with the latch (kept by every operation), the waiter is released exactly when cleanupSession has run |
| LegacySession.StreamSession.ContinueLoop | oldCPP/src/core/StreamSession.cpp:122-126 | the loop goes on exactly when running is set and disconnecting is not |
| LegacySession.StreamSession.HandleReceive | oldCPP/src/core/StreamSession.cpp:128-181 | one iteration after receive, including the exception path and the event handed to the listener |
| LegacySession.StreamSession.SendToEach | oldCPP/src/core/StreamSession.cpp:158-169 | sends to every snapshot entry and collects the failed ones; sends nothing while disconnecting |
| LegacySession.StreamSession.PruneFailed | oldCPP/src/core/StreamSession.cpp:171-181 | disconnects every failed entry and erases it |
| LegacySession.SubscriberOperations | oldCPP/src/core/StreamSession.cpp:73-95 | add appends; remove erases every copy and disconnects once; remove-all disconnects each and clears; add-then-remove of an unlisted handler restores the vector |
| LegacySession.CleanupSignalsCompletion | oldCPP/src/core/StreamSession.cpp:35-64 | the first call sets disconnecting and cleanupDone and clears running and the subscribers, on both the normal and the exception path |
| LegacySession.CleanupReleasesThread | oldCPP/src/core/StreamSession.cpp:44-52 | unless join throws, the worker handle is released and the subscribers and then the publisher are disconnected |
| LegacySession.CleanupIdempotent | oldCPP/src/core/StreamSession.cpp:36-38 | after the first call, any later call changes nothing |
| LegacySession.CompletionTracksLatch | oldCPP/src/core/StreamSession.cpp:35-71 | every transition, including removeAllSubscribers, keeps cleanupDone equal to disconnecting |
| LegacySession.PublisherLossReported | oldCPP/src/core/StreamSession.cpp:107-145 | a failed receive while running, or a throwing receive, ends the loop; a PublisherDisconnected event with the publisher's id and handler is delivered exactly when the listener is alive |
| LegacySession.BroadcastAndPrune | oldCPP/src/core/StreamSession.cpp:147-181 | every snapshot subscriber gets the chunk, in order; exactly the failed ones are disconnected and removed |
| LegacySession.State.CleanupAsWritten | oldCPP/src/core/StreamSession.cpp:35-64 | cleanup as written terminates exactly on a first call from the worker while the handle exists; otherwise it latches, and a first call clears running and the subscribers and signals cleanupDone |
| LegacySession.CleanupAsWrittenTerminatesOnWorker | oldCPP/src/core/StreamSession.cpp:45-50 | called on the worker thread while the handle is present, cleanup as written destroys a joinable thread |
| LegacySession.CleanupAgreesWithAsWritten | oldCPP/src/core/StreamSession.cpp:35-64 | on every other call the corrected cleanup behaves as the code as written |
| Manager.ValidateStreamId | src/core/StreamManager.cpp:133-140 | a stream id is accepted exactly when it is not empty |
| Manager.StreamManager.constructor | src/core/StreamManager.cpp:24 | both maps start empty, so every key agrees with its session |
| Manager.StreamManager.OnPublisherConnected | src/core/StreamManager.cpp:28-56 | a registered id is refused and nothing changes; a new id gets a fresh, running session with the callback, registered under the id and the publisher; every method keeps each key agreeing with its session |
| Manager.StreamManager.RegisterAndStart | src/core/StreamManager.cpp:42-52 | inserts both entries and starts the session; if it was already running, both entries are erased again and false is returned |
| Manager.StreamManager.OnSubscriberConnected | src/core/StreamManager.cpp:58-71 | an unknown id is refused and nothing changes; a known id gets the subscriber appended to its session and mapped to it |
| Manager.StreamManager.RemoveSession | src/core/StreamManager.cpp:73-107 | the connection entry goes; a publisher's stream id goes too and its session is untouched; a subscriber is also removed from its session (corrected; see Findings) |
| Manager.StreamManager.RemoveStream | src/core/StreamManager.cpp:109-131 | the iterator loop erases every connection entry of the stream's session and then the id; an unknown id changes nothing |
| Manager.StreamManager.PublisherStep | src/core/StreamManager.cpp:38-40 | a worker step whose failure report reaches the callback runs the callback restricted to this session (corrected; see Findings); afterwards the registry holds no reference to the session, which is then destroyed on its worker thread (corrected destructor; see Findings) |
| Manager.StreamManager.RemoveStreamOf | src/core/StreamManager.cpp:38-40 | the restricted callback: the session's connection entries go, and its id entry goes only while it maps to this session (corrected; see Findings) |
| Manager.StreamManager.DetachSession | src/core/StreamManager.cpp:117-125 | the iterator walk erases exactly the connection entries that point at the session; the id map is untouched |
| Manager.CallbackRemovesOnlyItsStream | src/core/StreamManager.cpp:38-40 | reported with its own id, the restricted callback leaves no reference to the session; an id or connection entry stays exactly when it maps to another session, with its old value; Valid and Linked are kept |
| Manager.CallbackAgreesWithRemoveStream | src/core/StreamManager.cpp:38-40 | while the id still maps to the reporting session, the restricted callback is removeStream |
| Manager.StaleCallbackAsWrittenDropsNewerStream | src/core/StreamManager.cpp:38-40 | as written, a stale session's failure erases the newer stream registered under the same id and releases the newer session, while the stale session's subscriber entries stay; the restricted callback keeps the newer stream and drops the stale entries |
| Manager.Registry.RemoveSessionAsWritten | src/core/StreamManager.cpp:73-107 | as written, an unmapped connection changes nothing and any mapped connection loses its entry and its stream id's entry |
| Manager.ReleasedAfterRemoveStream | src/core/StreamManager.cpp:109-131 | removing a session's own stream id leaves the registry with no reference to that session |
| Manager.PublisherFailureAsWrittenTerminates | src/core/StreamManager.cpp:38-40 | a registered, running publisher whose receive fails reports its id, loses every registry reference on its worker thread, and as written its destruction terminates |
| Manager.PublisherFailureReleasesSession | src/core/StreamManager.cpp:38-40 | with the corrected destructor and the restricted callback, the same failure, whether or not the id still maps to the session, ends with no registry reference, the handle released, and the subscribers and then the publisher disconnected |
| Manager.PrunedStep | src/core/StreamManager.cpp:119-125 | visiting one entry of the connection map erases it exactly when it points at the session being removed |
| Manager.AttachPublisherRegisters | src/core/StreamManager.cpp:42-44 | the id map grows by exactly one key, the publisher's id; both new entries point at the session; other entries stay |
| Manager.AttachPublisherKeepsInvariants | src/core/StreamManager.cpp:42-44 | registering a session under its own publisher keeps Valid and Linked |
| Manager.RollBackUndoesAttach | src/core/StreamManager.cpp:47-52 | the rollback restores the id map and leaves the publisher unmapped |
| Manager.AttachSubscriberKeepsInvariants | src/core/StreamManager.cpp:66-70 | the subscriber maps to its stream's session; the id map is unchanged; Valid and Linked are kept |
| Manager.RemoveStreamDropsSession | src/core/StreamManager.cpp:109-131 | the id goes and exactly the connections of its session go, the rest unchanged; an unknown id changes nothing; Valid and Linked are kept |
| Manager.RemoveSessionKeepsStreams | src/core/StreamManager.cpp:73-107 | an unmapped connection changes nothing; a subscriber loses only its entry, and Linked is kept; a publisher's id goes too; Valid is kept |
| Manager.SubscriberDisconnectAsWrittenDropsStream | src/core/StreamManager.cpp:80-93 | as written, a subscriber's disconnect erases its stream's id entry, which breaks Linked while the publisher is mapped; the corrected version keeps the id map |
| Manager.PublisherDisconnectAgrees | src/core/StreamManager.cpp:80-93 | for a publisher, or an unmapped connection, both versions agree |

## Left out

- Threads, mutexes, atomics and the condition variable. Each worker iteration
  is a sequential step, and another operation can run only between the two
  steps. So `isDisconnecting` never changes during a send pass, and the break
  inside the pass is reached only when the flag is already set at its start.
- The 100 ms sleep in the earlier cleanup, and all logging.
- Reference counting. The two registry maps are the only owners of a
  session in these files. The model destroys a session when they stop
  holding it, and only on the worker path (`PublisherStep`). With the
  restricted callback, the only session that path can release is the
  reporting one. A session that `removeSession` drops is not destroyed in the
  model. The weak listener is
  only a flag that says whether it is alive.
- Session.StreamSession.StartPublishing and
  LegacySession.StreamSession.StartPublishing: on a session that is not running
  but still holds a joinable handle, the source's assignment of a new
  `std::thread` destroys the old joinable one, which calls `std::terminate`;
  the model returns true and replaces the handle. That state arises only after
  a throwing join or a cleanup on the worker thread, and nothing in these
  files starts a cleaned-up session again.
- Exceptions other than a throwing `join()` in cleanup and a throwing
  `receive()` in the earlier worker. A throwing `disconnect()`, `send()` or
  `onStreamEvent()` is not modelled.
- `receive()` results other than a chunk or `STREAM_ERROR` (another negative
  value) are not modelled. A chunk is assumed to be at most `BUFFER_SIZE`
  bytes.
- The listener's reaction to the event: the listener is not part of this
  model.
- The manager never calls `cleanupSession` itself. `removeStream` only drops
  map entries. `removeSession` drops map entries and, for a subscriber, calls
  `removeSubscriber` on its session. Cleanup runs from the session's
  destructor.
- Manager.StreamManager.RemoveSession, Manager.StreamManager.PublisherStep,
  Session.StreamSession.Destroy and LegacySession.StreamSession.CleanupSession
  use the corrected behaviour described under Findings. The code as written is
  modelled by `Registry.RemoveSessionAsWritten`, `Registry.RemoveStream` (the
  callback as wired), `State.DestroyAsWritten` and `State.CleanupAsWritten`.
- The headers `src/core/StreamSession.h` and `src/core/StreamManager.h` declare
  a socket-based API that the `.cpp` files do not implement. The model follows
  the `.cpp` files.
- The SRT server, the SRT handler, `main`, and the Rust sources
  (`src/core/server.rs`, `src/core/stream_manager.rs`, `src/net`, `src/utils`,
  `src/config`). These are socket plumbing, stubs or data outside this core.

## Findings

| source | as written | input that shows it | evidently intended | confidence | as-written member | corrected member |
|---|---|---|---|---|---|---|
| src/core/StreamManager.cpp:85 | `isPublisher` compares the found map key with the connection it was looked up by, so it is always true. Every disconnect erases the stream id entry, and `removeSubscriber` is never called | a stream with publisher P and subscriber S; S disconnects | only the publisher's disconnect removes the stream; a subscriber's disconnect removes only that subscriber | high, not executed | Manager.SubscriberDisconnectAsWrittenDropsStream | Manager.RemoveSessionKeepsStreams |
| oldCPP/src/core/StreamSession.cpp:45-50 | on the worker thread the code skips the join but still calls `reset()` on the joinable thread, and destroying a joinable `std::thread` calls `std::terminate` | a first call of cleanupSession made on the worker thread (directly, or through the destructor when the worker drops the last reference) while the worker handle exists | the handle is detached before it is released, so cleanup completes and signals `cleanupDone` | medium, not executed | LegacySession.CleanupAsWrittenTerminatesOnWorker | LegacySession.CleanupReleasesThread |
| src/core/StreamSession.cpp:31-48 | when the publisher's receive fails, the worker calls the onDisconnect callback, and `removeStream` (src/core/StreamManager.cpp:109-131) erases every map entry of the session. At the end of `removeStream` the last reference is dropped on the worker thread. `~StreamSession` then runs `cleanupSession`, which skips join and reset on the worker (line 45), and the still-joinable `m_publisherThread` is destroyed, which calls `std::terminate` | a registered publisher whose receive returns `STREAM_ERROR` while the session is running | the handle is detached when the session is destroyed on its own worker thread, so the stream is torn down and the process goes on | medium, not executed | Manager.PublisherFailureAsWrittenTerminates | Manager.PublisherFailureReleasesSession |
| src/core/StreamManager.cpp:38-40 | the onDisconnect callback removes by stream id, not by session. A session whose publisher was removed by `removeSession` keeps running while its subscribers' entries hold it. Once a new publisher registers the same id, the stale session's failed receive runs `removeStream(id)`, which erases the new stream and drops the new session, whose destruction on the stale worker disconnects the new publisher and its subscribers | publisher P1 on id "a" with subscriber S; P1 disconnects; P2 publishes "a"; P1's receive then returns `STREAM_ERROR` | the callback removes only the reporting session's entries, and the id entry only while it maps to that session | medium, not executed | Manager.StaleCallbackAsWrittenDropsNewerStream | Manager.CallbackRemovesOnlyItsStream |
