# WSCALL verification

WSCALL is a WebSocket RPC framework: a client numbers its calls, sends them as binary frames over a
connection it re-establishes when it breaks, and a server answers each request under the request's id.
This project models the four parts whose correctness depends on more than one function and proves them
in Dafny 4.11. `dafny verify dfyconfig.toml` checks everything.

| part | modules |
|---|---|
| Frames on the wire | `Bytes`, `Attachment`, `Json`, `Packet`, `FrameCodec`, `CodecLaws`, `WireFormat` |
| Rate limiting | `RateLimiter`, `LimiterHistory` |
| The client | `ClientLifecycle`, `ClientCalls`, `ClientShared`, `Failover` |
| The server's connection | `ServerHandlers`, `ServerConnection`, `ServerLoop` |
| Both ends together | `Handshake`, `Setup`, `EndToEnd`, `Channels`, `Runs`, `AnsweredCall`, `RefusedEvent` |

**How concurrency is modelled.** Tasks interleave at atomic accesses to sequentially consistent shared
state. A step system has one step per access and a program counter per task; a run is any list of
steps, and a step that is not enabled is skipped. Every theorem named "in every run" quantifies over all
such lists. Timeouts, lost connections, verdicts, handler results and random nonces are parameters of
the steps, so they may happen at any time and in any way. `ClientShared.Client` and
`ServerLoop.Connection` hold the same state in fields that methods update; their contracts are stated
with the functions the step systems use.

**Assumptions**

- The generation check and the `swap` of `handle_disconnect` are one step, and so are the shutdown check
  and the generation increment of the supervisor. Neither pair has an await between its halves.
- JSON parsing inverts JSON printing. A sealed message is 16 bytes longer than its plaintext and opens
  to it under the same key and nonce (section 2.8 of RFC 8439, section 7 of NIST SP 800-38D). The X25519
  shared secret is the same from both sides (section 6.1 of RFC 7748). These are hypotheses
  (`FrameCodec.Lawful`, `Handshake.Commutes`) of the theorems that need them.
- Strings are the byte or character sequences that valid UTF-8 text has; lossy repair is the identity on them.
- The clock the rate limiter reads never goes back, and one public call on it is one step.
- Filters and the exception handler return normally; a panic in a route or event handler is modelled.
- Queues are unbounded here. The program's queues hold 256 packets. A full queue makes a call or a reply
  wait, which only removes interleavings; it drops a pushed event, which is a push that never happens here.
- The id counters do not wrap around at 2^64.

**Where the program and its documentation differ**, the model follows the program:

- The rate limiter's module comment speaks of a sliding window; the code keeps a fixed window per key.
- Request and event ids are documented as per-connection counters; the client's counters live as long as the client.
- A frame that opens a counter is tested only against limits of zero. So a first frame longer than
  `max_bytes` is allowed (`LimiterHistory.LongFirstFrameIsAllowed`), and cleanup can change a verdict
  (`CleanupVisibleWithoutGuard`). `WindowsAreCapped`, `FirstFrameWithinLimitIff` and `EvictionInvisibleIff`
  state exactly when the byte limit holds and when cleanup is invisible; the two conditions differ.
- The attachment count is one byte, so longer lists do not survive the wire; `CodecLaws.CrossDecodeIff`
  states exactly which packets do and `AttachmentsLostByCountByte` shows a family that does not.
- A rate-limited event is acknowledged as successful without running a handler. `EventsAreEndToEndCorrect`
  states exactly when a receipt comes from a handler, and `RefusedEvent.RefusedEventReturnsOk` is a run in
  which it does not.
- With shared keys `queue_for` encodes before it queues, so a reply that does not fit the server's codec is
  lost on a live connection (`ServerConnection.ReplyLost`); `QueuedIff` and `ReplyConservation` say exactly
  which replies are queued.

## Model

| member | source | states |
|---|---|---|
| EndToEnd.CallsAreEndToEndCorrect | crates/wscall-client/src/client_runtime.rs:261-300 | In every run of client, ordered network and server, over reconnects, timeouts and replies in any order: a call causes at most one handler execution over all connections, and every one under its id is for the request that call sent (exactly, unless its attachments do not fit the wire). A call answered before it times out returns what became of its own request: if the rate limiter refused it, nothing ran and it returns the 503 error; otherwise it returns `Ok(v)` if and only if the one execution returned `v`, and else the error in the reply to its request, or the fallback error if that has none |
| EndToEnd.EventsAreEndToEndCorrect | crates/wscall-client/src/client_runtime.rs:302-341 | The same for `send_event`: at most one handler execution over all connections, for the event that was sent; an answered event that was admitted returns `Ok(v)` if and only if the one execution returned `v`; a refused one ran nothing and returns the empty receipt; so a returned receipt came from a handler if and only if the event was admitted |
| AnsweredCall.CallReturnsItsAnswer | crates/wscall-client/src/client_runtime.rs:261-300 | For every route, all parameters and every fate of the request whose two packets fit in frames, a run in which the call returns `Ok(v)` if the handler returned `v` and otherwise the error of the reply, after exactly one execution if a handler ran |
| RefusedEvent.RefusedEventReturnsOk | crates/wscall-server/src/server_runtime.rs:896-944 | A run in which a refused event comes back as a success with an empty receipt and no handler ran |
| Setup.HandshakesSuffice | crates/wscall-client/src/client_runtime.rs:545-624 | Connections whose handshakes completed hold codecs that meet the assumptions of the end-to-end results |
| EndToEnd.StepKeeps | crates/wscall-server/src/server_runtime.rs:896-964 | Every step of the composed system keeps the invariant that ties queues, frames in flight, decoded packets, handler runs, refusals and answered waiters together |
| EndToEnd.ServerReadKeeps | crates/wscall-server/src/server_runtime.rs:838-891 | Reading a frame moves at most the packet it was encoded from to the decoded ones; no request is duplicated or invented |
| EndToEnd.SendKeeps | crates/wscall-client/src/client_runtime.rs:770-779 | A call or event puts its packet on one connection, once, under an id nobody has sent before |
| EndToEnd.DispatchKeeps | crates/wscall-client/src/client_runtime.rs:361-402 | Dispatching a reply the server handed in keeps the invariant, in which every answer is explained by a reply under the same id |
| EndToEnd.ResponseAnswers | crates/wscall-client/src/client_runtime.rs:361-383 | A response answers the call registered under its id: with its data if and only if it is ok, else with its own error, or the fallback if it has none. The id is gone and nobody else is touched; an id that is not registered, 0 among them, changes nothing |
| EndToEnd.AckAnswers | crates/wscall-client/src/client_runtime.rs:384-402 | An acknowledgement answers the event registered under its id in the same way |
| EndToEnd.OthersAnswerNobody | crates/wscall-server/src/server_runtime.rs:842-888 | The reply to a frame that failed the header checks, and every packet that is no reply, completes nobody |
| Channels.UpIsFifo | crates/wscall-client/src/client_runtime.rs:623-650 | For every step of the composed system: what is on its way to the server is one first-in first-out queue over the client's queue and the wire; a write loses a packet exactly if it does not encode, a cut loses the last one in flight |
| Channels.DownIsFifo | crates/wscall-server/src/server_runtime.rs:763-790 | The same towards the client |
| Handshake.NoEntryWithoutApproval | crates/wscall-server/src/server_runtime.rs:652-752 | Whatever arrives, a connection enters the table of a server with an auth handler only after the handler approved the credential in the first frame after the keys, read with the codec derived for this connection |
| Handshake.LiveMeansApproved | crates/wscall-client/src/client_runtime.rs:572-617 | A client with a credential is live only if the server's auth handler was called once, with that client's credential, and approved it; a server with an auth handler serves the client only then |
| Handshake.EndsDecodeEachOther | crates/wscall-client/src/client_runtime.rs:545-571 | In the same key mode both ends hold codecs that decode each other's frames, with the exact condition on the packet |
| Handshake.EndsAgree | crates/wscall-protocol/src/lib.rs:63-82 | Both ends derive the same session key from their own secret and the other's public key |
| Handshake.SessionCodecIs | crates/wscall-protocol/src/lib.rs:63-82 | The derived codec is ChaCha20 under the hash of the text "wscall-ecdh-v1" and the shared secret, with a limit of 100 MiB |
| Handshake.FrameLimits | crates/wscall-server/src/server_runtime.rs:650-660 | Which frame limit each end reads and writes with, in both key modes |
| Handshake.ServerKeyIff | crates/wscall-server/src/server_runtime.rs:1005-1039 | The server's key step succeeds exactly for a binary message of 32 bytes and then answers with its own key |
| Handshake.AuthDecides | crates/wscall-server/src/server_runtime.rs:662-738 | A first frame that is no auth request fails the connection and asks nobody; otherwise the handler is asked about its credential, an approval whose response encodes puts the connection in the table, and a denial is sent and fails it |
| Handshake.VerdictDecides | crates/wscall-client/src/client_runtime.rs:585-616 | The client is live exactly after a positive verdict |
| Handshake.ApprovedHandshakeCompletes | crates/wscall-client/src/client_runtime.rs:545-617 | A run in which a credential the handler approves brings both ends up with their agreed codecs, the handler having been asked once about it |
| Handshake.OpenHandshakeCompletes | crates/wscall-client/src/client_runtime.rs:545-617 | Without credential and auth handler both ends are up after the keys |
| Handshake.ClientPostIsRead | crates/wscall-client/src/client_runtime.rs:627-650 | What a live client posts is read by the server as the packet that was posted, if its frame fits both ends |
| Handshake.ServerPostIsRead | crates/wscall-server/src/server_runtime.rs:763-790 | The same for what the server posts |
| Handshake.ParsePeerPublic | crates/wscall-protocol/src/lib.rs:87-97 | Accepts exactly the 32-byte strings, unchanged |
| ClientCalls.NoOrphanedWaiters | crates/wscall-client/src/client_runtime.rs:793-814 | In every interleaving, a call bound to a connection that is torn down has been answered, and while the drain runs an unanswered one is still due; no waiter is ever displaced |
| ClientCalls.LoadedWriterIsNotDrained | crates/wscall-client/src/client_runtime.rs:770-779 | A writer that can still be loaded belongs to a connection whose drain has not taken its snapshot |
| ClientCalls.DrainTakesOnlyItsOwn | crates/wscall-client/src/client_runtime.rs:787-814 | While a connection is torn down, every unanswered call that has a connection has that one |
| ClientCalls.DrainedCallMovesOnIff | crates/wscall-client/src/client_runtime.rs:770-814 | A call failed by the drain of one connection may still be sent later; it then goes to another connection if and only if it had not loaded a writer when it was drained |
| ClientCalls.IdsNeverReused | crates/wscall-client/src/client_runtime.rs:271-275 | Ids are at least 1 and never reused over the client's life, an insert never overwrites a waiter, and a reply with id 0 completes nobody |
| ClientCalls.ReturnedOnce | crates/wscall-client/src/client_runtime.rs:289-299 | A returned call was removed from its table by exactly one of response, drain, send failure and timeout, and its id is in no table. Unless it timed out, a call whose packet was sent returns what it was answered, which is "connection closed" if a drain answered it; one that was not sent or never registered returns a disconnect |
| ClientCalls.TaskDecides | crates/wscall-client/src/client_runtime.rs:261-300 | A call gives up at once if and only if the client is not connected, takes the stored writer and fails if and only if there is none, and receives the answer it was given; no sender is dropped without one |
| ClientCalls.FailedSendIsUndone | crates/wscall-client/src/client_runtime.rs:275-290 | A send that fails takes back exactly its own registration and returns a disconnect |
| ClientCalls.TimeoutIsUndone | crates/wscall-client/src/client_runtime.rs:292-299 | A timeout takes back exactly its own registration and returns a timeout |
| ClientCalls.TaskNeverSticks | crates/wscall-client/src/client_runtime.rs:261-300 | A call that has not returned always has a step of its own to take |
| ClientCalls.StepKeeps | crates/wscall-client/src/client_runtime.rs:261-340 | Every step of calls, events, responses, timeouts and teardowns keeps the tables, the tasks and the coverage of unanswered calls in order |
| ClientLifecycle.LifecycleLaw | crates/wscall-client/src/client_runtime.rs:787-827 | In every run, connections gone live minus teardowns is 1 exactly when connected; the stored writer of a connected client is the current one's; each connection is torn down at most once, in order; a teardown at work is of the current generation |
| ClientLifecycle.NoAttemptAfterShutdown | crates/wscall-client/src/client_runtime.rs:466-471 | Once shutdown is set it stays set and the generation never advances again |
| ClientLifecycle.OneAttemptWithoutReconnect | crates/wscall-client/src/client_runtime.rs:488-496 | Without auto-reconnect the generation never exceeds 1 |
| ClientLifecycle.BackoffLaw | crates/wscall-client/src/client_runtime.rs:462-505 | In every run the sleep after a live connection is 3 s and the following ones, while attempts fail, are 6, 12, 24 and then always 30 s, counted from the sleeps alone; before every sleep after a live connection, its teardown reported, exactly once, this delay as its `retry_after` |
| ClientLifecycle.SupervisorDecides | crates/wscall-client/src/client_runtime.rs:462-505 | An attempt begins exactly without shutdown; a failed first attempt ends the supervisor; a check adds exactly one sleep with auto-reconnect on and no shutdown, and otherwise ends the supervisor |
| ClientLifecycle.SwapWinsIff | crates/wscall-client/src/client_runtime.rs:787-795 | A teardown call takes effect exactly for the current generation of a connected client |
| ClientLifecycle.ReportDecides | crates/wscall-client/src/client_runtime.rs:816-822 | A winner reports for its own generation, and promises 3 s exactly if the client will reconnect |
| ClientLifecycle.TeardownNeverSticks | crates/wscall-client/src/client_runtime.rs:787-827 | A teardown that won always has a step to take, and its end wakes the supervisor |
| ClientLifecycle.ClosesAreCounted | crates/wscall-client/src/client_runtime.rs:343-359 | In every run each `close` has made its one teardown call or is about to |
| ClientLifecycle.RunPromises | crates/wscall-client/src/client_runtime.rs:498-502 | A supervisor that goes on to sleep was woken by a winner that had reported; without such a winner `close` is under way and no sleep follows |
| ClientLifecycle.DelayTable | crates/wscall-client/src/client_runtime.rs:846-853 | The delays are 3, 6, 12, 24 and then 30 s |
| ClientShared.StepIsOneAccess | crates/wscall-client/src/client_runtime.rs:261-340 | Every step of the interleaved client touches the shared fields by one atomic access and no more |
| ClientShared.Client.NextGeneration | crates/wscall-client/src/client_runtime.rs:467-471 | Begins an attempt under a new generation unless shutdown is set |
| ClientShared.Client.FetchId | crates/wscall-client/src/client_runtime.rs:271-271 | Advances one of the two id counters and returns its new value |
| ClientShared.Client.Remove | crates/wscall-client/src/client_runtime.rs:370-370 | Removes one waiter and returns whoever was registered |
| ClientShared.Client.Deactivate | crates/wscall-client/src/client_runtime.rs:787-795 | Succeeds for the current generation of a connected client only, and then marks it disconnected |
| ClientShared.Client.Attempt | crates/wscall-client/src/client_runtime.rs:466-474 | One uninterrupted pass of the supervisor: nothing after shutdown, otherwise a new generation that is the live one if the attempt succeeds |
| ClientShared.Client.StoreLive | crates/wscall-client/src/client_runtime.rs:623-624 | Stores the writer before the client counts as connected |
| ClientShared.Client.DrainApi | crates/wscall-client/src/client_runtime.rs:802-807 | Empties the table of calls; exactly the registered waiters are notified, each under its id |
| ClientShared.Client.DrainEvents | crates/wscall-client/src/client_runtime.rs:809-814 | Empties the table of events in the same way |
| ClientShared.Client.HandleDisconnect | crates/wscall-client/src/client_runtime.rs:781-814 | Without interruption: no effect unless it wins; if it wins, the writer is gone, both tables are empty and everybody registered was notified |
| ClientShared.Client.Close | crates/wscall-client/src/client_runtime.rs:343-359 | Sets shutdown, tells the stored writer to close, and tears down the current connection |
| Failover.UrlCursor.Connect | crates/wscall-client/src/client_runtime.rs:512-543 | One cycle tries the servers in cyclic order from the sticky index, picks the first reachable one and remembers it, and fails only if none is reachable |
| Failover.UrlCursor.constructor | crates/wscall-client/src/client_runtime.rs:115-125 | The list is the primary followed by the alternatives, starting at the primary |
| Failover.TriedOnce | crates/wscall-client/src/client_runtime.rs:517-518 | No index is tried twice in a cycle |
| Failover.TriedInOrder | crates/wscall-client/src/client_runtime.rs:517-518 | A cycle begins at the sticky index and goes to the successor each time, wrapping at the end of the list |
| Failover.OffsetOf | crates/wscall-client/src/client_runtime.rs:517-518 | Every index is tried in a full cycle |
| ServerConnection.ReplyConservation | crates/wscall-server/src/server_runtime.rs:896-964 | In every run: free permits plus running handlers equal the cap; every decoded request or event is replied to once under its own id, waits for a permit, or is running; refused are exactly the packets whose verdict was not Allowed, in order, and each other one is handled once, waits, or is running; every reply was made for one packet by what a handler task made of it or by its refusal; every reply was handed to the queue, and while the connection is in the table and its writer runs, what was queued is exactly what was handed in and could be queued, in order |
| ServerConnection.VerdictDecides | crates/wscall-server/src/server_runtime.rs:896-944 | At any point of any run, a frame that decodes to a request or event with verdict Allowed only makes the reader wait with it; with Limited or Banned it is refused and answered under its own id, a request with status 503, an event with success and an empty receipt, and no handler task starts |
| ServerConnection.OtherMessages | crates/wscall-server/src/server_runtime.rs:838-895 | A frame that fails the header checks is answered under id 0 and changes nothing else; one that does not decode stops the reader; a control packet changes nothing |
| ServerConnection.RejectionIsFrameError | crates/wscall-server/src/server_runtime.rs:842-888 | The reply to a frame that fails the header checks has id 0, is not ok and has status 413 |
| ServerConnection.QueuedIff | crates/wscall-server/src/server_runtime.rs:1121-1156 | On a live connection a packet is queued if and only if the keys were agreed per connection or its whole frame fits the limit of the server's codec |
| ServerConnection.ReplyLost | crates/wscall-server/src/server_runtime.rs:1145-1148 | A live connection on which the reply to a readable request is lost because it does not encode |
| ServerConnection.RunDelivers | crates/wscall-server/src/server_runtime.rs:1121-1156 | Nothing that could be queued is lost, reordered or added before the connection leaves the table or its writer ends |
| ServerConnection.FastRejectAgreesWithDecode | crates/wscall-server/src/server_runtime.rs:840-891 | The reader decodes a message exactly when `decode`'s header checks pass, so no length or size error can arise after it |
| ServerConnection.StepKeeps | crates/wscall-server/src/server_runtime.rs:1041-1114 | Every step of reader, handler tasks, pushes, writer and teardown keeps the accounting |
| ServerLoop.Connection.Drive | crates/wscall-server/src/server_runtime.rs:763-991 | Any schedule of the connection's tasks, on fields updated in place, is a run of the step system and leaves permits, replies, handler runs and queue accounted for |
| ServerLoop.Connection.ValidMeansAccounted | crates/wscall-server/src/server_runtime.rs:826-981 | The validity that every method keeps implies the whole accounting |
| ServerLoop.Connection.ReadMessage | crates/wscall-server/src/server_runtime.rs:838-944 | One binary message: header checks, decoding, verdict; at most the packet it decodes to is added |
| ServerLoop.Connection.AcceptPacket | crates/wscall-server/src/server_runtime.rs:896-944 | A decoded request or event is admitted exactly on Allowed and refused otherwise; the state changes as the step system says |
| ServerLoop.Connection.Queue | crates/wscall-server/src/server_runtime.rs:1121-1156 | Queues exactly when the connection is in the table, its writer runs and, with shared keys, the packet encodes; otherwise reports failure and leaves the queue alone |
| ServerLoop.Connection.StartHandler | crates/wscall-server/src/server_runtime.rs:946-956 | Takes a permit and starts a handler task, never more than the cap |
| ServerLoop.Connection.ReadLoop | crates/wscall-server/src/server_runtime.rs:826-981 | The reader loop over the messages at hand; when it blocks, every permit is held by a handler task |
| ServerLoop.Connection.RunHandler | crates/wscall-server/src/server_runtime.rs:1041-1082 | The reply of a handler task is under its packet's own id and positive exactly when a handler returned; the permit is kept until it is handed in |
| ServerLoop.Connection.FinishHandler | crates/wscall-server/src/server_runtime.rs:1068-1068 | The reply handed in is at the end of the queue exactly when it could be queued, and free permits plus running handlers equal the cap again |
| ServerLoop.Connection.WriteNext | crates/wscall-server/src/server_runtime.rs:763-790 | The writer puts the oldest entry on the wire, and ends exactly when it cannot encode it |
| ServerLoop.Connection.Teardown | crates/wscall-server/src/server_runtime.rs:984-991 | Afterwards nothing that is handed in is queued, and every decoded packet is still replied to or running |
| ServerHandlers.RunApiRequest | crates/wscall-server/src/server_runtime.rs:1158-1232 | The filter loop, the route of the final context and the handler give the reply of the request's fate, with one execution exactly when a handler was reached; the lemmas below say what that fate is |
| ServerHandlers.UnfilteredRequest | crates/wscall-server/src/server_runtime.rs:1172-1208 | Without filters the handler of the request's route runs on the fields of the request, written out one by one |
| ServerHandlers.TwoFilters | crates/wscall-server/src/server_runtime.rs:1172-1208 | Two filters: the first is given the request's own context, the second what the first returned, the handler what the second returned; a refusal by the first means that the second is not applied |
| ServerHandlers.FiltersCompose | crates/wscall-server/src/server_runtime.rs:1184-1193 | Filters run in registration order, for lists of any length |
| ServerHandlers.KeptFieldReachesHandler | crates/wscall-server/src/server_runtime.rs:1184-1193 | A field that every filter keeps reaches the handler as the request carried it |
| ServerHandlers.RequestFailures | crates/wscall-server/src/server_runtime.rs:1184-1232 | Status and error of every failing request, as the exception handler, told connection, id, route and kind, turns it out |
| ServerHandlers.EventHandlerInput | crates/wscall-server/src/server_runtime.rs:1240-1272 | The event's handler is found by name and runs on the fields of the event, one by one |
| ServerHandlers.EventFailures | crates/wscall-server/src/server_runtime.rs:1260-1319 | The error of every failing event; the exception handler does not see a missing handler |
| ServerHandlers.ApiReplyMeaning | crates/wscall-server/src/server_runtime.rs:1158-1232 | Whatever filters do, the reply carries the request's id and is successful exactly when a handler returned, with that value |
| ServerHandlers.EventReplyMeaning | crates/wscall-server/src/server_runtime.rs:1234-1319 | The acknowledgement carries the event's id and is successful exactly when a handler returned, with its receipt |
| RateLimiter.RateLimiterState.CheckAndRecord | crates/wscall-server/src/rate_limiter.rs:216-316 | The four maps change and the verdict is given as the specification function says, which the history results above characterise |
| RateLimiter.RateLimiterState.RecordConnection | crates/wscall-server/src/rate_limiter.rs:245-278 | The per-connection part: window, counts, limit test and ban |
| RateLimiter.RateLimiterState.RecordIp | crates/wscall-server/src/rate_limiter.rs:281-309 | The per-address part |
| RateLimiter.RateLimiterState.IsIpBanned | crates/wscall-server/src/rate_limiter.rs:196-206 | True exactly during a ban; an expired entry is removed |
| RateLimiter.RateLimiterState.Cleanup | crates/wscall-server/src/rate_limiter.rs:321-343 | Drops exactly the stale counters and the expired bans |
| LimiterHistory.CountersAreHistory | crates/wscall-server/src/rate_limiter.rs:167-173 | In every run each counter holds exactly the calls and bytes of its key, not counting banned calls, since its window opened, and each ban expires one duration after the latest excess |
| LimiterHistory.VerdictsAreHistory | crates/wscall-server/src/rate_limiter.rs:216-316 | The limiter refines a specification over the call history alone, written in sums of calls and bytes: in every guarded run the answers are the prescribed ones |
| LimiterHistory.AllowedIff | crates/wscall-server/src/rate_limiter.rs:360-372 | In every guarded run a call that is not banned is Allowed if and only if in both dimensions the calls and bytes of its window, itself included, are within their limits |
| LimiterHistory.FirstCallsPass | crates/wscall-server/src/rate_limiter.rs:360-372 | With a message limit on connections alone, exactly the first `max_messages` calls of each window pass |
| LimiterHistory.CleanupKeepsExactly | crates/wscall-server/src/rate_limiter.rs:321-343 | Cleanup keeps exactly the windows younger than twice the longest period (one minute if none is set) and the running bans |
| LimiterHistory.CleanupIsInvisible | crates/wscall-server/src/rate_limiter.rs:321-343 | Inserting cleanup anywhere in a guarded run changes no answer |
| LimiterHistory.EvictionInvisibleIff | crates/wscall-server/src/rate_limiter.rs:258-277 | Exactly when an evicted counter is judged like an elapsed one: no message is allowed at all, or the byte guard holds |
| LimiterHistory.CleanupVisibleWithoutGuard | crates/wscall-server/src/rate_limiter.rs:258-277 | A run in which cleanup changes a verdict |
| LimiterHistory.BansAreExact | crates/wscall-server/src/rate_limiter.rs:224-238 | In every run a check answers Banned, and `is_ip_banned` answers true, exactly when an earlier excess of that key lies less than one ban duration back |
| LimiterHistory.BannedCallsCountNothing | crates/wscall-server/src/rate_limiter.rs:224-238 | A banned call touches no counter and no running ban |
| LimiterHistory.BansAreNeverExtended | crates/wscall-server/src/rate_limiter.rs:224-238 | In every run two excesses of one connection or address lie at least one ban duration apart |
| LimiterHistory.AllowedTrafficIsBounded | crates/wscall-server/src/rate_limiter.rs:360-372 | In every run the messages allowed for a key stay within the limit in one window and within twice the limit in any interval of one period; so do the bytes if no single allowed frame is longer than the limit, which a guard on the frames ensures |
| LimiterHistory.WindowsAreCapped | crates/wscall-server/src/rate_limiter.rs:245-309 | In every run each window of a key is within the message limit, and each is within the byte limit if and only if no single allowed frame of the key is longer |
| LimiterHistory.FirstFrameWithinLimitIff | crates/wscall-server/src/rate_limiter.rs:258-277 | Exactly when a frame that opens a counter and passes is within the byte limit |
| LimiterHistory.GuardedFramesFit | crates/wscall-server/src/rate_limiter.rs:245-309 | If every frame meets that guard, no allowed frame is longer than the byte limit |
| LimiterHistory.LongFirstFrameIsAllowed | crates/wscall-server/src/rate_limiter.rs:258-277 | A run in which a frame above the byte limit is allowed |
| CodecLaws.RoundTripIff | crates/wscall-protocol/src/lib.rs:930-1080 | An encoded packet decodes to itself, up to normal form, exactly when its type matches, its attachments fit and the frame length fits its prefix, in all three modes |
| CodecLaws.CrossDecodeIff | crates/wscall-protocol/src/lib.rs:930-1080 | The same between two codecs with the same wire mode and key |
| CodecLaws.CrossDecodeShape | crates/wscall-protocol/src/lib.rs:1017-1080 | Whatever the other end manages to decode is the packet that was encoded, attachments aside |
| CodecLaws.SizeLaw | crates/wscall-protocol/src/lib.rs:930-1007 | Encoding succeeds exactly when the whole frame, with nonce and tag, fits the limit, and the frame has exactly that length |
| CodecLaws.LengthsAreExact | crates/wscall-protocol/src/lib.rs:1017-1033 | Under a limit of at most 2^32+3 both length prefixes are exact and decoding reports no wrong length or oversized frame |
| CodecLaws.AttachmentsLostByCountByte | crates/wscall-protocol/src/lib.rs:949-974 | Lists whose length is a multiple of 256 lose every attachment |
| CodecLaws.CompositeRoundTripIff | crates/wscall-protocol/src/lib.rs:1047-1080 | A composite is read back exactly when the attachment list fits |
| WireFormat.FrameHead | crates/wscall-protocol/src/lib.rs:930-1007 | The first four bytes of every frame are the length of the rest, most significant first, and the fifth is 0, 1 or 2 by kind of message |
| WireFormat.PlainBody | crates/wscall-protocol/src/lib.rs:942-977 | The bytes of a plaintext frame after the head: JSON length, JSON, attachment count, attachments |
| WireFormat.SealedBody | crates/wscall-protocol/src/lib.rs:979-1007 | An encrypted frame holds the nonce and the sealed form of what a plaintext frame would hold |
| WireFormat.SectionBytes | crates/wscall-protocol/src/lib.rs:231-244 | The bytes of one attachment, length bytes included |
| WireFormat.WireKeys | crates/wscall-protocol/src/lib.rs:504-617 | Every packet is written under exactly the stated keys, with its kind as a number from 0 to 5 |
| WireFormat.HeaderRefusals | crates/wscall-protocol/src/lib.rs:1017-1033 | A frame header is refused for exactly the stated reasons, in this order |
| WireFormat.SparseRequests | crates/wscall-protocol/src/lib.rs:692-756 | What a request, event or credential with nothing but its required fields reads as |
| WireFormat.SparseReplies | crates/wscall-protocol/src/lib.rs:692-756 | The same for replies: what does not say that it is ok is not |
| WireFormat.RefusedBodies | crates/wscall-protocol/src/lib.rs:692-756 | A body of no known kind, or without a field its kind requires, is refused |
| FrameCodec.EncodePlain | crates/wscall-protocol/src/lib.rs:942-977 | The single-buffer encoder with two patched placeholders yields the specified frame, and its bytes from offset 5 are the composite of the encrypted path |
| FrameCodec.EncodeSealed | crates/wscall-protocol/src/lib.rs:979-1007 | The encrypted path yields the specified frame or error |
| FrameCodec.EncodeFrame | crates/wscall-protocol/src/lib.rs:930-1007 | The wire mode of the codec selects the path |
| FrameCodec.DecodeFrame | crates/wscall-protocol/src/lib.rs:1017-1080 | Header checks, opening, attachment loop and body in the program's order give the specified result or error |
| FrameCodec.BuiltCodecsAreKeyed | crates/wscall-protocol/src/lib.rs:867-912 | After any builder calls the key of the wire mode is present |
| FrameCodec.PatchedFrame | crates/wscall-protocol/src/lib.rs:942-977 | Patching leaves exactly length, type, meta length and the rest |
| Packet.BodyRoundTrip | crates/wscall-protocol/src/lib.rs:504-756 | Each of the six packet kinds reads back from the keys it writes, up to normal form |
| Packet.Deserialize | crates/wscall-protocol/src/lib.rs:692-756 | Taking keys out of the map one by one computes the specified body or error |
| Packet.SerializedKeysDistinct | crates/wscall-protocol/src/lib.rs:504-617 | No key is written twice |
| Attachment.WriteWire | crates/wscall-protocol/src/lib.rs:231-244 | Appends one section to the buffer, of exactly `wire_size` bytes |
| Attachment.ReadWire | crates/wscall-protocol/src/lib.rs:247-325 | The moving-position reader computes the specified attachment and rest, or error |
| Attachment.ReadAll | crates/wscall-protocol/src/lib.rs:1057-1065 | The decode loop reads the counted sections in order |
| Attachment.SectionsLength | crates/wscall-protocol/src/lib.rs:226-228 | The bytes written total the sum of `wire_size` |
| Attachment.SectionRoundTripIff | crates/wscall-protocol/src/lib.rs:231-325 | A written section followed by any bytes reads back as that attachment and those bytes exactly when its fields fit their length bytes |
| Attachment.StrictPrefixRejected | crates/wscall-protocol/src/lib.rs:247-325 | Every strict prefix of an in-range section is rejected |
| Attachment.AttachmentListRoundTripIff | crates/wscall-protocol/src/lib.rs:1057-1065 | The whole list is recovered in order exactly when it has at most 255 in-range attachments |

## Left out

- Tokio scheduling, TCP, tungstenite framing, heartbeats and idle timers: only their effects, a connection that ends, a timeout that fires and a message that arrives, are steps.
- Cipher, hash, curve and random-number internals, and JSON text syntax: functions with the laws listed above.
- ServerHandlers.RunApiRequest: filters and handlers are functions of their context, without effects of their own; in the step systems a handler may return anything.
- ServerConnection.FastRejectAgreesWithDecode: the error texts omit the numbers that the program formats into them.
- EndToEnd.CallsAreEndToEndCorrect: says nothing of fairness: no claim that every call is at some time sent, run or answered; `AnsweredCall.CallReturnsItsAnswer`, `ClientCalls.TaskNeverSticks` and `ClientLifecycle.TeardownNeverSticks` say that such runs exist and that nobody is left without a step.
- EndToEnd.SendKeeps: frames other than requests, events and acknowledgements (pings, pongs, close) are not carried by the model's channels.
- ClientShared.Client.HandleDisconnect: states the uninterrupted call; interleavings of it are the subject of the step systems.
- Interleavings inside one `check_and_record` call, cancelled `call` futures, wrap-around of the u64 counters, and panics in filters or the exception handler.
- "Never connected after `close`": an attempt past the shutdown check can still go live; the model states only that no new attempt begins.
- Decoding of frames that no encoder wrote is modelled but only its header checks are characterised: bytes after the last attachment section are ignored by the program.
- Queue capacities and back-pressure, reconnect jitter, lifecycle callbacks other than the reported `retry_after`, broadcast to several connections, and the contents of pushed events.
- Parameter validation, context accessors, configuration builders, the facade crate and the examples: plumbing that would only add easy members.
