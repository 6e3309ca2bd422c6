# A verified model of grlx-rpc

grlx-rpc multiplexes remote calls, notifications and keepalives over one ordered
byte stream. A server puts an admission controller in front of its sessions, and
message bodies pass through a decoder that bounds what a forged size prefix can
make it allocate. This project models those parts in Dafny and proves what they
promise, for every input, every history and every interleaving.

`dafny verify dfyconfig.toml` checks everything.

| module | what it models |
|---|---|
| `Words` | bytes, 64-bit words, little-endian form |
| `Framing` | the byte stream: `msg_writer`, `msg_reader`, `deadline_read` |
| `AsyncOps` | `async_manager`: tokens, capacity-1 result channels, the pending map |
| `Protocol` | two session endpoints as a transition system; one step per stretch of code between two suspensions |
| `Invariant`, `Traffic`, `Soundness` | the invariant over every place a message can be, and that every step keeps it |
| `Guarantees`, `Quiescence` | what follows in every reachable state and of every run |
| `Whereabouts` | where an awaited call is, and that it can always move on |
| `Stream` | the frame-level wire of the protocol is the byte stream of `Framing` |
| `Effects` | each step spelled out frame by frame; how many handlers a reader starts; why a call failed |
| `Aftermath` | what teardown leaves behind, and the order of its two sweeps |
| `SessionObject` | the session class, each method proved to take one protocol step |
| `RateLimit` | `token_bucket` |
| `RequestGate` | the rate gate in front of a session's handlers |
| `Admission` | the server's filter, caps, counters and active set |
| `Capacity` | how many sessions and handshakes that really lets in, in all and per address, on any number of threads |
| `Archive` | the wire format and the bounded decoder |
| `StringHash`, `Dispatch` | call ids, the dispatch table and its gate |
| `ClientCell` | the client's session cell |
| `EndToEnd` | codec, hash, table and protocol together |

## The main results

- **Correlation.** A call that returns a buffer returns the output of the one
  handler run spawned for exactly its own request, whatever the order of replies,
  timeouts and teardown (`Guarantees.Correlation`). With the dispatch table and
  the codec it becomes: `invoke` returns the function of its arguments
  (`EndToEnd.InvokeReturnsFunctionOfArguments`).
- **No call is lost.** While both sides are open an awaited call is in exactly one
  of seven places, and unless that place is "dropped" some step of the system still
  carries calls on (`Whereabouts.CallIsSomewhere`, `AwaitedCallMoves`). The handlers
  that finished without an answer are exactly those that forsook their request; a
  dropped call waits for its timeout or a close (`LostIffForsaken`, `ReliableIff`,
  `DroppedCallWaits`). In a run without such a step every call finishes, in
  whatever order productive moves are made, within as many of them as there is work
  (`CallsFinish`).
- **Teardown.** No caller is stranded by `close()`; with its two sweeps swapped a
  run strands one for good (`Guarantees.NoCallerStranded`,
  `Aftermath.SweepFirstStrands`, `StrandedStays`). After it, the pending map holds
  exactly the calls begun since (`Aftermath.PendingPastSweep`).
- **Tokens, replies, notifications.** One owner per token, at most one reply per
  request, notifications applied in order and without gaps.
- **Quiescence.** Once nothing new is started, a run has at most as many moves as
  the state has work.
- **Framing.** From any prefix of the written bytes, in any chunking, the reader
  takes exactly the frames complete in it, up to the first over its limit; in every
  reachable state that is what the frame-level protocol does (`Framing.ReadAnyPrefix`,
  `Stream.BytesCarryFrames`).
- **Token bucket.** The O(1) state is the minimum slack over every past window; a
  call is refused exactly when granting it would break some window's envelope.
- **Admission.** The exact bounds on what a server holds, in all and per address,
  for every configuration and any number of threads: nothing exceeds them and a run
  of the code reaches each. The configured caps hold of every run if and only if a
  stated condition on the limits and the threads does.
- **Codec.** On any bytes a value comes out if and only if they begin with its
  encoding and no container in it trips the guard; so no message cut short decodes.
  Every value of a type survives the round trip if and only if container elements
  take at least a byte everywhere in the type (`Archive.DecodeIff`,
  `TruncatedNeverDecodes`, `EveryValueSurvivesIff`). The sizes acted on have a closed
  bound in the message's length.
- **Request gate.** A handler is started for exactly the requests within the size
  limit that the bucket lets through, at most burst + rate x length of them in any
  stretch of time; a refused one gets an error and the session stays open
  (`Effects.HandlersAreReads`, `HandlerRateBounded`, `RefusedRequestEffect`). Before
  a handler runs, the dispatch gate lets the call through or denies it
  (`Dispatch.GateDecides`).

## Where the code differs from its documentation

- The rate limiter marks an unused bucket by a zero clock reading, so a bucket
  used at clock reading zero is refilled on its next call. The envelope holds of
  every history that starts at reading t0 if and only if t0 is not zero
  (`RateLimit.EnvelopeIffClockStarted`).
- `max_concurrent_sessions` is checked before the handshake and counted after it,
  so it is not the bound on sessions. On one thread the bound is one less plus
  `max_concurrent_handshakes`. On N threads, N at least 2, it is N more: a slot may
  change hands between a socket's filter and its in-flight check, and each of the
  other threads may hold a session that has given its slot back and is not counted
  yet. The cap holds of every run if and only if nobody can get in, as with an accept
  burst above 0 and below 1, or there is one thread and one handshake at a time
  (`Capacity.SessionCapHoldsIff`).
- `max_sessions_per_ip` is passed in the same way: on one thread one address reaches
  min(cap, global cap) - 1 sessions plus the handshakes it can have in flight at
  once, and up to N more on N threads. Those handshakes are
  `max_concurrent_handshakes` when handshakes may last, and at most burst + rate x T,
  rounded down, when the channel gives up on them after T: 30 sessions under the
  default limits on one thread with a handshake timeout of 3 seconds. An address
  without an entry is not compared with the cap, so a cap of 0 acts as 1.
  `Capacity.PerAddressCapHoldsIff` and `PromptPerAddressCapHoldsIff` say exactly when
  the cap holds.
- A `connect` that fails, or succeeds, while the cell holds a live session takes
  that session out of the cell without closing it (`ClientCell.OrphanedIff`).
- The guard's comment says that a legitimate count never exceeds the remaining
  bytes. A container of more than 64 elements that take no bytes is refused
  (`Archive.EmptyElementsIff`, `EveryValueSurvivesIff`).
- The hash widens a plain `char`, so it is FNV-1a on every name only where plain
  `char` is unsigned; elsewhere a name with exactly one character outside ASCII hashes
  differently (`StringHash.HashIsFnv1aIff`, `OneHighCharNotPortable`).
- `close()` empties the map of pending calls only once. A call begun after that
  enters the map, fails to queue its request and is never taken out
  (`Aftermath.LateCallStaysPending`, `LateTokenStays`); past the sweep the map is
  empty if and only if no call was begun since (`Aftermath.PendingPastSweep`).
- A handler ignores an exception from queueing its error reply. A send on an open
  channel that nobody cancels does not fail by itself, so while the session is open
  this takes an exception on the way to it, such as a failed allocation of the frame.
  Then the request is lost: its caller waits for its timeout or for a close of its
  session (`Whereabouts.LostIffForsaken`, `DroppedCallWaits`, and the run
  `ForsakenCallIsLost`).

## Assumptions

- Code between two suspensions is one atomic step. Channels, the wire and strands
  are FIFO. A failed send on a channel enqueues nothing; a closed channel still
  hands out what it holds, and closing one wakes the senders waiting for room in it,
  whose sends then fail.
- A read on a closed stream fails. In particular, after an oversized request has
  been answered, `close()` shuts the stream before the next read.
- A session issues fewer than 2^64 tokens, and bodies are shorter than 2^64 bytes.
- Both hosts are little-endian: frame headers are written in host order.
- The wire takes whatever is written: the results that a call can always move on do
  not cover a transport that stops accepting bytes.
- The clock does not go back. Its readings, the rate gate's verdict inside the
  protocol, the outcome of a handshake and the output of a handler are parameters.
- Of the server, the stretch from filter to in-flight check and that from giving a
  handshake's slot back to taking a seat may each be left half way while other
  threads run, and then hold a thread. The filter itself, the two counter updates of
  a seat and those of a completion are one step each.
- Server limits are fixed, and every accepted socket has passed the filter. How long
  a handshake may take is a parameter of the results that need it; a session keeps
  the address of its socket.
- In the end-to-end results, handlers are attached before the session starts.

## Model

| member | source | states |
|---|---|---|
| `Guarantees.Correlation` | include/grlx/rpc/session.hpp:164-242 | In every reachable state a call that returned a buffer has a handler run on the peer whose request is that call's own frame (call id of its name, its token, its bytes), whose output is that buffer, and which is the only run with its token. |
| `Guarantees.ResolvedByOwnRequest` | include/grlx/rpc/session.hpp:583-747 | The reply that took a call's token is one the peer sent in answer to exactly that call's request frame, with both positions in the two streams. |
| `Guarantees.RemoteFailureIsOwn` | include/grlx/rpc/session.hpp:795-818 | A call that failed remotely was failed by an error frame the peer sent for that call's own request. |
| `Guarantees.RunsDistinct` | include/grlx/rpc/session.hpp:594-712 | At most once: two handler runs with the same token are the same run. |
| `Guarantees.RunServesCall` | include/grlx/rpc/session.hpp:624-712 | Every handler run serves a request frame of a call the peer really made. |
| `Guarantees.AtMostOneReply` | include/grlx/rpc/session.hpp:583-708 | Two different replies on a write queue answer different requests and carry different tokens, across the oversized, rate-limited, throwing and failed-send branches. |
| `Guarantees.OneOwnerPerToken` | include/grlx/rpc/async_manager.hpp:84-143 | The pending set is always issued minus completed minus swept; completed and swept are disjoint; only completed tokens are delivered. |
| `Guarantees.TokenLeavesOnce` | include/grlx/rpc/async_manager.hpp:84-205 | A token out of the pending map never returns and what took it never changes; a timeout leaves the manager as it was. |
| `Guarantees.SendNeverBlocks` | include/grlx/rpc/async_manager.hpp:96-98 | A completion about to send finds its channel open and empty, its token delivered by nobody: the capacity-1 send is enabled and is the channel's only one. |
| `Guarantees.ChannelHoldsAtMostOne` | include/grlx/rpc/async_manager.hpp:202-205 | No result channel ever holds more than one message. |
| `Guarantees.NoCallerStranded` | include/grlx/rpc/session.hpp:354-386 | After the sweep a waiting caller can receive at once, or its channel is about to be closed, or the completion owning its token can send; with the stream shut and no completion under way, it can receive. |
| `Aftermath.NeverStranded` | include/grlx/rpc/session.hpp:354-386 | In no reachable state does a caller wait on an open, empty channel in a session that is over. |
| `Aftermath.SweepFirstStrands` | include/grlx/rpc/session.hpp:368-376 | With the sweep before the closing of the queue, a run in which a call begun and queued between the two is stranded. |
| `Aftermath.StrandedStays` | include/grlx/rpc/session.hpp:368-376 | In that order a stranded caller stays so: no step but its own timeout ends the wait. |
| `Aftermath.LateStep` | include/grlx/rpc/session.hpp:354-376 | Every step keeps: past the sweep exactly the tokens issued since are pending, and no request was ever sent for them. |
| `Aftermath.ReplyIsNotLate` | include/grlx/rpc/async_manager.hpp:84-94 | Past the sweep no reply on its way can take a pending token, since each answers a request sent before. |
| `Aftermath.PendingPastSweep` | include/grlx/rpc/session.hpp:170-180 | In every reachable state past the sweep the pending map is exactly the tokens issued since; it is empty if and only if no call was begun since; those calls are never resolved and never waited on. |
| `Aftermath.LateTokenStays` | include/grlx/rpc/async_manager.hpp:185-195 | A token pending past the sweep stays pending through every step of either side. |
| `Aftermath.LateCallStaysPending` | include/grlx/rpc/session.hpp:170-180 | A run: close() runs to its end, a call is begun, its request is refused, and its token is left in the map. |
| `Whereabouts.DiligentStep` | include/grlx/rpc/session.hpp:583-712 | Every step keeps what an open session owes: each request read has a handler, is being declined or was answered; each awaited call was sent; each reply read has taken its token; reader and writer run. |
| `Whereabouts.CallIsSomewhere` | include/grlx/rpc/session.hpp:164-242 | In every reachable state with both sides open an awaited call is in exactly one place: asked, serving, declining, replied, handed over, delivered, or dropped by its handler. |
| `Whereabouts.PlacePinned` | include/grlx/rpc/session.hpp:583-712 | Each of those places determines the position of the call's one request. |
| `Whereabouts.PinnedOnce` | include/grlx/rpc/session.hpp:583-712 | No two of them can hold of the same request. |
| `Whereabouts.AwaitedCallMoves` | include/grlx/rpc/session.hpp:393-415 | No deadlock: while both sides are open and a call is awaited, a step that carries calls on is enabled, or that call was dropped. |
| `Whereabouts.BecomesUnanswered` | include/grlx/rpc/session.hpp:684-707 | A step of an open endpoint leaves a handler finished and unanswered only if it was so before or forsakes its request in that step. |
| `Whereabouts.UnansweredStays` | include/grlx/rpc/session.hpp:684-707 | A handler finished and unanswered stays so through every step. |
| `Whereabouts.ForsakingLoses` | include/grlx/rpc/session.hpp:701-707 | A handler that gives up on its error reply is finished and unanswered from then on. |
| `Whereabouts.LostIffForsaken` | include/grlx/rpc/session.hpp:693-707 | At every point of every run, while a side is open, its finished and unanswered handlers are exactly those that gave up on their error reply while it was open. |
| `Whereabouts.ReliableIff` | include/grlx/rpc/session.hpp:693-707 | Of every run that ends with both sides open: no handler ever did that if and only if every finished handler has answered. |
| `Whereabouts.DroppedStays` | include/grlx/rpc/session.hpp:205-226 | No move but its own timeout, while its side is open, ends the wait of a dropped call or gets it out of that place. |
| `Whereabouts.DroppedCallWaits` | include/grlx/rpc/session.hpp:205-226 | So at every later point of a run it is still awaited and still dropped, up to its timeout or a close of its side. |
| `Whereabouts.NoCallLost` | include/grlx/rpc/session.hpp:684-707 | In every run in which no handler forsakes its request no call is dropped while both sides are open, and while one is awaited some step carries calls on. |
| `Whereabouts.CallsCanFinish` | include/grlx/rpc/session.hpp:164-242 | From every state of such a run, at most as many productive moves as there is work lead to one with no call awaited, or a side closing. |
| `Whereabouts.CallsFinish` | include/grlx/rpc/session.hpp:164-242 | In every such run whose moves from some point on are productive there are at most as many of them as there was work then, and where no more can be made no call is awaited or a side is closing. |
| `Whereabouts.ForsakenCallIsLost` | include/grlx/rpc/session.hpp:701-707 | A run in which it happens: the caller waits, both sides are open, and nothing can move. |
| `Guarantees.NotificationOrder` | include/grlx/rpc/session.hpp:749-793 | The notifications applied are a prefix, in order, of those the sender's queue accepted; gaps are only the refused attempts. |
| `Guarantees.OutcomeFinal` | include/grlx/rpc/session.hpp:221-241 | No step changes the outcome, name or request of a call that has returned or failed: a late reply goes nowhere. |
| `Stream.OversizedIsLast` | include/grlx/rpc/session.hpp:603-609 | In every reachable state a frame over a reader's limit is the last it took, and the reader is gone or about to be. |
| `Stream.LastStep` | include/grlx/rpc/session.hpp:603-609 | Every step keeps that. |
| `Stream.LevelsAgree` | include/grlx/rpc/session.hpp:477-557 | Once the bytes of what the frame-level reader took have arrived, the byte-level reader has taken the same whole frames and, at an oversized request, stands at its header. |
| `Stream.BytesCarryFrames` | include/grlx/rpc/session.hpp:399-557 | In every reachable state, however many of the written bytes have arrived, the byte-level reader takes the beginning of what the sender's queue accepted, up to the last complete frame or the first over the limit, in step with the frame level. |
| `Stream.WrittenIsSized` | include/grlx/rpc/session.hpp:173-178 | Everything a session ever writes fits its header's size word, keepalives have no body, and it is the beginning of what its queue accepted. |
| `Quiescence.StepWorks` | include/grlx/rpc/session.hpp:511-546 | Every step that starts no call, notification or ping strictly decreases the work of the two endpoints. |
| `Quiescence.QuietRunsEnd` | include/grlx/rpc/session.hpp:583-712 | From a sound state, n steps that start nothing new leave at least n less work. |
| `Quiescence.QuietFromReachable` | include/grlx/rpc/session.hpp:74-80 | From every reachable state such a run has at most as many moves as there is work, each using some up: ping and pong cannot go on for ever. |
| `Invariant.TokenStep` | include/grlx/rpc/async_manager.hpp:84-143 | Every step keeps each token's bookkeeping: its owner, what its channel holds, and that any result, wherever it is, is that of the reply that took it. |
| `Invariant.TokensStep` | include/grlx/rpc/session.hpp:164-242 | The same for all tokens of an endpoint at once. |
| `Invariant.AsideStep` | include/grlx/rpc/session.hpp:393-592 | Application, writer and handler steps, reader steps other than handing a result over, and reading anything but a reply that resolves a call, leave all token bookkeeping alone. |
| `Invariant.CallFrame` | include/grlx/rpc/session.hpp:164-242 | A caller's step touches its own call and channel, the token counter, and the queue while it is open. |
| `Traffic.NotificationsAppend` | include/grlx/rpc/session.hpp:765-772 | Filtering notifications out of a stream distributes over cutting the stream. |
| `Traffic.AnsweredReply` | include/grlx/rpc/session.hpp:583-592 | Queueing a reply for a request not yet answered keeps every reply traced to one request of its own. |
| `Traffic.AnsweredRead` | include/grlx/rpc/session.hpp:594-632 | Reading a frame, and giving it a run or to the reader to answer, keeps it too: no reply so far answers the new position. |
| `Traffic.OutgoingRequest` | include/grlx/rpc/session.hpp:172-180 | Queueing a registered call's request keeps all queued requests distinct and each the frame of its call. |
| `Soundness.TrafficStep` | include/grlx/rpc/session.hpp:583-818 | Every step keeps the history consistent: queued requests are those of calls, runs serve requests read, replies answer them once, notifications are accounted for. |
| `Soundness.SoundStep` | include/grlx/rpc/session.hpp:164-818 | Every step keeps both halves of an endpoint's invariant, whatever the peer sends. |
| `Soundness.FlowsStep` | include/grlx/rpc/session.hpp:393-415 | Every step keeps: accepted by one side's queue == read by the other + on the wire + still queued. |
| `Soundness.SystemStep` | include/grlx/rpc/session.hpp:164-818 | Every move of either side keeps the invariant of both sides and both directions. |
| `Soundness.RunOkAt` | include/grlx/rpc/session.hpp:164-818 | So every state of every run from a sound state is sound. |
| `Soundness.ReachableOk` | include/grlx/rpc/session.hpp:93-107 | So is every state reachable from two new sessions. |
| `SessionObject.Session.constructor` | include/grlx/rpc/session.hpp:93-107 | A new session is a fresh endpoint with a bucket seeded from its limits. |
| `SessionObject.Session.TrySend` | include/grlx/rpc/session.hpp:314-336 | Accepted exactly when the queue is open and has room; a refusal changes nothing. |
| `SessionObject.Session.BeginCall` | include/grlx/rpc/session.hpp:164-170 | Registering a call is the protocol's begin step; the channel is new and the token the next one. |
| `SessionObject.Session.QueueRequest` | include/grlx/rpc/session.hpp:172-180 | Building the header and queueing it is the protocol's queue step, or the failure of a closed queue. |
| `SessionObject.Session.TryPing` | include/grlx/rpc/session.hpp:314-322 | Takes the ping step and reports whether there was room. |
| `SessionObject.Session.TryNotify` | include/grlx/rpc/session.hpp:325-336 | Takes the notify step under the name's call id and reports whether it was accepted. |
| `SessionObject.Session.WriteNext` | include/grlx/rpc/session.hpp:399-415 | Moves the oldest queued item to the end of the wire. |
| `SessionObject.Session.DispatchRequest` | include/grlx/rpc/session.hpp:594-632 | Size gate, then rate gate, then a handler; the bucket is touched only for a request within the size limit. |
| `RequestGate.GateTracksCalls` | include/grlx/rpc/session.hpp:611-622 | After any history of frames the gate's bucket is the one its own calls give, and the handlers started are the calls granted. |
| `RequestGate.RequestRateBounded` | include/grlx/rpc/session.hpp:611-622 | In any stretch of time the gate opens at most request_burst + rate x length times, whatever frames its peer sends. |
| `Effects.SentAsAsked` | include/grlx/rpc/session.hpp:172-178 | A request, a ping and a notification are queued field by field as the caller gave them, when there is room for one more among 256. |
| `Effects.ReadEffect` | include/grlx/rpc/session.hpp:714-818 | An oversized response, notification or error ends the session unread; every other frame is taken. |
| `Effects.KeepaliveEffect` | include/grlx/rpc/session.hpp:513-534 | A ping queues one pong if there is room; a pong or a nop changes nothing else. |
| `Effects.RefusedStartsNothing` | include/grlx/rpc/session.hpp:615-622 | Whatever the frame, the gate's refusal starts no handler. |
| `Effects.AllowedRequestEffect` | include/grlx/rpc/session.hpp:624-632 | A request within the limit that the gate lets through gets a handler of its own and the reader reads on. |
| `Effects.RefusedRequestEffect` | include/grlx/rpc/session.hpp:615-622 | A refused one gets an error with its own call id and token, and the session stays open. |
| `Effects.OversizedRequestEffect` | include/grlx/rpc/session.hpp:603-609 | An oversized one gets the same error, whatever the gate, and ends the session. |
| `Effects.ReplyEffect` | include/grlx/rpc/session.hpp:714-818 | A reply to a pending call leaves the reader with its body, or with an error; any other reply is dropped. |
| `Effects.HandlersAreReads` | include/grlx/rpc/session.hpp:594-632 | At every point of every run a session has as many handlers as it has read requests within the limit with the gate's leave. |
| `Effects.AddedAreStarted` | include/grlx/rpc/session.hpp:611-632 | Where the verdicts are those of the session's bucket, the handlers added between two times are the gate's openings between them. |
| `Effects.HandlerRateBounded` | include/grlx/rpc/session.hpp:611-632 | So in any stretch of time at most request_burst + rate x length handlers are added to a session. |
| `Effects.TimedOutIff` | include/grlx/rpc/session.hpp:213-227 | In every run a call reports a timeout if and only if its own timer fired while it was waiting. |
| `Effects.FailureMeans` | include/grlx/rpc/session.hpp:228-231 | In every reachable state a call that reports a closed channel was taken by close(), and one that reports a closed queue was never sent. |
| `SessionObject.Session.HandleReply` | include/grlx/rpc/session.hpp:714-747 | Hands a result over exactly when the reply's token is still pending, and drops the reply otherwise. |
| `SessionObject.Session.HandlePing` | include/grlx/rpc/session.hpp:517-529 | Queues one pong if there is room and nothing else. |
| `SessionObject.Session.HandleOther` | include/grlx/rpc/session.hpp:749-793 | A notification is posted to the end of the strand; a nop or pong changes only the history. |
| `SessionObject.Session.ApplyNotification` | include/grlx/rpc/session.hpp:765-790 | The strand hands out notifications oldest first, each once. |
| `SessionObject.Session.RejectOversized` | include/grlx/rpc/session.hpp:717-722 | An oversized response, notification or error ends the session with the whole teardown and its body unread. |
| `SessionObject.Session.HandleTaken` | include/grlx/rpc/session.hpp:511-556 | The reader's switch is the protocol's read step, with the gate's verdict on the bucket, which it moves on accordingly. |
| `SessionObject.Session.HandleFrame` | include/grlx/rpc/session.hpp:477-557 | The same for any frame: those out of bounds close the session, all others take the read step. |
| `SessionObject.Session.QueueError` | include/grlx/rpc/session.hpp:583-592 | The reader's error reply echoes its request and is refused only by a closed queue. |
| `SessionObject.Session.AnswerWithError` | include/grlx/rpc/session.hpp:603-622 | After it an oversized request ends the session with the whole teardown; a rate-limited one does not. |
| `SessionObject.Session.Respond` | include/grlx/rpc/session.hpp:684-707 | A handler ends with its response, else with an error, else with nothing when the queue is closed; each reply echoes its request's call id and token. |
| `SessionObject.Session.Close` | include/grlx/rpc/session.hpp:354-386 | Idempotent; closes the queue, sweeps every pending call, closes the stream. |
| `SessionObject.SweepOut` | include/grlx/rpc/async_manager.hpp:133-142 | Closing the swept channels one by one, in some order, ends with exactly those closed. |
| `SessionObject.CloseIsSteps` | include/grlx/rpc/session.hpp:354-386 | What `Close` does in one go, from an open or a marked session, is what the protocol's interleavable steps do. |
| `AsyncOps.CloseChannels` | include/grlx/rpc/async_manager.hpp:133-142 | Every channel taken is closed and keeps what it holds. |
| `AsyncOps.AsyncManager.constructor` | include/grlx/rpc/async_manager.hpp:197-205 | No tokens issued, nothing pending. |
| `AsyncOps.AsyncManager.CreateOperation` | include/grlx/rpc/async_manager.hpp:185-205 | A new token and a new empty channel, entered in the pending map; nothing else changes. |
| `AsyncOps.AsyncManager.TakeOperation` | include/grlx/rpc/async_manager.hpp:84-94 | Whoever takes a pending token gets its channel, and nobody after it does. |
| `AsyncOps.AsyncManager.CompleteOperation` | include/grlx/rpc/async_manager.hpp:84-99 | A pending token is taken and its result sent to its own channel; an unknown one changes nothing. |
| `AsyncOps.AsyncManager.CancelAllOperations` | include/grlx/rpc/async_manager.hpp:125-143 | The map is emptied and exactly the channels that were in it are closed. |
| `EndToEnd.SameCallId` | include/grlx/rpc/string_hash.hpp:36-50 | Two hosts give a name the same call id when their plain char has the same sign or the name is ASCII. |
| `EndToEnd.CallRunsAttachedHandler` | include/grlx/rpc/session.hpp:684-691 | A call that returned to a method that is not public was allowed by the callback, with admin for an admin method, and returned what the handler attached last under its name gives for its request bytes. |
| `EndToEnd.InvokeReturnsFunctionOfArguments` | include/grlx/rpc/client.hpp:205-243 | When the handler decodes, applies f and encodes, a call made with encoded arguments that returned gives bytes that decode to f of those arguments, whatever the byte order of either side. |
| `Framing.ReadOne` | include/grlx/rpc/session.hpp:477-557 | One turn of the reader takes only frames within the receiver's limits and always consumes bytes. |
| `Framing.ReadOneOfFrame` | include/grlx/rpc/session.hpp:477-557 | Reading any written frame: the frame and the byte after it when it is within the limit; a keepalive that carries a body is taken without it; anything else stops as too big. |
| `Framing.HeaderLayout` | include/grlx/rpc/session.hpp:60-66 | The header byte by byte: magic, size, type in the upper half of its word with its literal code, call id, token; then the body. |
| `Framing.ReadOneIs` | include/grlx/rpc/session.hpp:477-557 | One turn of the reader on any bytes whatever: which header bytes decide each way of stopping, and which bytes become kind, call id, token, body and rest. |
| `Framing.ReadAllAppends` | include/grlx/rpc/session.hpp:477-557 | After any written frames the reader stands on the boundary of whatever follows. |
| `Framing.PartialFrame` | include/grlx/rpc/session.hpp:443-475 | A proper prefix of a frame yields no frame. |
| `Framing.OversizedStops` | include/grlx/rpc/session.hpp:603-609 | A frame over the limit ends the reading as soon as its header has arrived, naming its kind, call id and token. |
| `Framing.ReadAnyPrefix` | include/grlx/rpc/session.hpp:477-557 | From any prefix of any written stream the reader takes exactly the frames complete in it, up to the first over its limit, and stops there for that reason or at the end of the bytes. |
| `Framing.ReadOfPrefix` | include/grlx/rpc/session.hpp:477-557 | When all are within the limit: from any prefix of the written bytes the reader takes exactly the frames complete in it, in order. |
| `Framing.RoundTripIff` | include/grlx/rpc/session.hpp:399-557 | The frames written are the frames read if and only if every body is within the limit and keepalives have none. |
| `Framing.EncodingInjective` | include/grlx/rpc/session.hpp:399-415 | Equal byte streams carry equal frames. |
| `Framing.EncodeAllAppends` | include/grlx/rpc/session.hpp:399-415 | The stream of a longer queue is the stream of its parts in order. |
| `Framing.ByteStream.ReadExactly` | include/grlx/rpc/session.hpp:443-475 | Whatever the chunking, the next n bytes in order, or failure exactly when fewer will ever arrive. |
| `Framing.ReadFrame` | include/grlx/rpc/session.hpp:477-557 | A header read and then a body read are one turn on the concatenated bytes. |
| `Framing.MsgReader` | include/grlx/rpc/session.hpp:477-557 | Under any chunking and any rate-gate verdicts (whose refusals drain the body) the loop's events are those of the frames in the concatenated bytes, and it stops for the same reason. |
| `Effects.EventIsDigest` | include/grlx/rpc/session.hpp:511-556 | For an idle reader whose call is pending, a frame's event is a result exactly when the protocol step leaves that result to hand over, a failure exactly when it leaves an error; it is a notification, a served or a refused request exactly when the step posts, starts a handler or answers. |
| `Framing.MsgWriter` | include/grlx/rpc/session.hpp:399-415 | The writer loop produces the concatenation of its items' frames. |
| `Words.WordRoundTrip` | include/grlx/rpc/session.hpp:411-412 | A header word survives its eight bytes. |
| `Words.LittleRoundTrip` | include/grlx/rpc/encoder.hpp:124-128 | An integer that fits its width survives its bytes. |
| `Words.LittleRoundTripBack` | include/grlx/rpc/encoder.hpp:124-128 | And any bytes survive being read as an integer: the form is a bijection. |
| `Words.ReversedTwice` | include/grlx/rpc/encoder.hpp:103-107 | Swapping byte order twice is the identity. |
| `RateLimit.TokenBucket.constructor` | include/grlx/rpc/security.hpp:26-30 | A configured bucket starts unused. |
| `RateLimit.TokenBucket.TryTake` | include/grlx/rpc/security.hpp:35-52 | Refill, verdict and deduction, in place, with the disabled and uninitialised cases. |
| `RateLimit.LevelIsLeastSlack` | include/grlx/rpc/security.hpp:35-52 | The tokens at call n are the minimum, over every window ending at n, of burst + rate x length - cost granted in it; the minimum is attained. |
| `RateLimit.GrantedIff` | include/grlx/rpc/security.hpp:45-51 | A call is granted if and only if limiting is disabled or granting it keeps every window within its envelope. |
| `RateLimit.WindowEnvelope` | include/grlx/rpc/security.hpp:35-52 | The cost granted in any window of calls is at most burst + rate x length. |
| `RateLimit.WindowIsRange` | include/grlx/rpc/security.hpp:35-52 | The calls inside a stretch of time are consecutive, and their cost is that of the range. |
| `RateLimit.TimeEnvelope` | include/grlx/rpc/security.hpp:18-22 | The cost granted in any stretch of time is at most burst + rate x its length. |
| `RateLimit.BeforeOfPrefix` | include/grlx/rpc/security.hpp:35-52 | The bucket's state depends on the calls made so far only. |
| `RateLimit.SpentDuringOfPrefix` | include/grlx/rpc/security.hpp:35-52 | So does what was granted. |
| `RateLimit.ZeroClockGrantsTwice` | include/grlx/rpc/security.hpp:37-39 | Two whole bursts at clock reading zero are both granted, which breaks the envelope. |
| `RateLimit.EnvelopeIffClockStarted` | include/grlx/rpc/security.hpp:37-39 | The envelope holds of all histories starting at reading t0 if and only if t0 is not zero. |
| `Admission.Server.constructor` | include/grlx/rpc/server.hpp:60-66 | A new server has counted nothing. |
| `Admission.Server.PreHandshakeFilter` | include/grlx/rpc/server.hpp:75-102 | Global cap, per-address cap, then the address's bucket, configured on first sight; a cap refusal touches no bucket. |
| `Admission.Server.BeginHandshake` | include/grlx/rpc/server.hpp:117-127 | Counts a handshake in flight exactly when the cap allows. |
| `Admission.Server.EndHandshake` | include/grlx/rpc/server.hpp:133-145 | A handshake that is over, well or badly, gives its slot back first. |
| `Admission.Server.Seat` | include/grlx/rpc/server.hpp:152-161 | A session is counted, globally and per address, and its insert posted. |
| `Admission.Server.Complete` | include/grlx/rpc/server.hpp:194-229 | Gives the seat back, drops an address's entry at zero, and posts the erase. |
| `Admission.Server.RunStrand` | include/grlx/rpc/server.hpp:159-161 | Runs the oldest posted operation; clearing first tells every active session to close, one by one. |
| `Admission.Server.CloseAllSessions` | include/grlx/rpc/server.hpp:418-437 | Posts that clearing behind everything already posted. |
| `Admission.CountedStep` | include/grlx/rpc/server.hpp:112-229 | Every step keeps the counters equal to what they count. |
| `Admission.SumIsSeated` | include/grlx/rpc/server.hpp:152-156 | Exact per-address counts add up to the number of seated sessions. |
| `Admission.SeatsConserved` | include/grlx/rpc/server.hpp:152-206 | At every point of every run: global count == seated sessions == sum of per-address counts; each entry is the positive number of sessions of its address; in-flight == handshakes running. |
| `Admission.ActiveAreSeated` | include/grlx/rpc/server.hpp:159-229 | With the strand drained the active set holds only seated sessions, and all of them if close_all_sessions was never called. |
| `Admission.SeatedActiveOrClosed` | include/grlx/rpc/server.hpp:418-437 | No session escapes close_all_sessions: with the strand drained every seated session is active or was told to close, and all of those seated when it is called are told. |
| `Admission.ErasesStayLast` | include/grlx/rpc/server.hpp:159-229 | No insert of a session is ever queued behind its erase. |
| `Admission.ErasedNeverReturns` | include/grlx/rpc/server.hpp:227-229 | Once its erase has run a session is never active, seated or queued for insertion again. |
| `Admission.BucketTracksHistory` | include/grlx/rpc/server.hpp:90-100 | An address's bucket is the one its own history of calls gives, and what it passed is what that history was granted. |
| `Admission.AcceptRateBounded` | include/grlx/rpc/server.hpp:90-100 | In any stretch of time an address gets at most burst + rate x length connections through the filter. |
| `Capacity.StingyLetsNobodyIn` | include/grlx/rpc/server.hpp:90-100 | An accept burst above 0 and below 1 lets nobody in, ever. |
| `Capacity.OccupiedStep` | include/grlx/rpc/server.hpp:112-206 | Of every step, only a socket entering its handshake adds to what the server holds. |
| `Capacity.OccupancyBounded` | include/grlx/rpc/server.hpp:75-156 | On N threads sessions, handshakes and sessions not yet counted never exceed max sessions - 1 + max handshakes, plus N when N is at least 2; 0 when nobody can get in. |
| `Capacity.OccupancyBoundReached` | include/grlx/rpc/server.hpp:75-156 | For every configuration, number of threads and handshake timeout a run reaches that bound by sessions alone, each seated under its own filtered address, on a clock that does not go back. |
| `Capacity.OccupiedByStep` | include/grlx/rpc/server.hpp:112-206 | Only the in-flight check adds to what an address occupies, and it takes over a socket already filtered. |
| `Capacity.AllPaidFor` | include/grlx/rpc/server.hpp:90-100 | Where the accept bucket is never refilled, every connection an address has in progress was paid for out of its one burst. |
| `Capacity.PerAddressBounded` | include/grlx/rpc/server.hpp:82-156 | The same per address, whatever handshakes take: min(max(cap, 1), global cap) - 1 + max handshakes, plus N when N is at least 2, and no more than the burst where the bucket is never refilled. |
| `Capacity.RecentArePassed` | include/grlx/rpc/server.hpp:90-127 | The handshakes an address has in flight since some time are among the connections the filter passed since. |
| `Capacity.FewInFlight` | include/grlx/rpc/server.hpp:90-127 | When no handshake outlasts T, a limited address has at most burst + rate x T of them in flight. |
| `Capacity.PromptPerAddressBounded` | include/grlx/rpc/server.hpp:82-156 | When no handshake outlasts T, the same for a limited address with min(max handshakes, or one more when N is at least 2, and floor(burst + rate x T)) in place of the handshakes, plus N - 1. |
| `Capacity.PromptPerAddressBoundReached` | include/grlx/rpc/server.hpp:82-156 | For every configuration, N and T one address alone reaches that bound by sessions alone: seats and held-back sessions first, then, once its bucket is full, a handshake as soon as there is a token. |
| `Capacity.PerAddressBoundReached` | include/grlx/rpc/server.hpp:82-156 | For every configuration and N, with handshakes that last long enough, one address alone reaches the bound that holds whatever they take. |
| `Capacity.SessionCapHoldsIff` | include/grlx/rpc/server.hpp:77-156 | max_concurrent_sessions holds of every run, however short handshakes are, if and only if nobody can get in, or there is one thread and one handshake at a time. |
| `Capacity.PerAddressCapHoldsIff` | include/grlx/rpc/server.hpp:82-156 | max_sessions_per_ip holds of every run if and only if nobody can get in, or a burst never refilled protects it, or it is positive with one thread and one handshake at a time, or the global cap protects it. |
| `Capacity.PromptPerAddressCapHoldsIff` | include/grlx/rpc/server.hpp:82-156 | The same on a limited server whose handshakes end within T, counting the handshakes its bucket grants in that time. |
| `Archive.LoadSaved` | include/grlx/rpc/encoder.hpp:124-148 | Loading a saved value at any place in a buffer gives it back and ends where it ended, or is refused by the guard; never anything else. |
| `Archive.LoadSavedParts` | include/grlx/rpc/message.hpp:9-34 | The same for a tuple of arguments. |
| `Archive.LoadSavedElements` | include/grlx/rpc/encoder.hpp:136-148 | The same for the elements of a container. |
| `Archive.RoundTripIff` | include/grlx/rpc/encoder.hpp:176-204 | For either byte order, decoding an encoding returns the value if no container's count exceeds its remaining bytes by more than 64, and fails otherwise. |
| `Archive.SolidAdmissible` | include/grlx/rpc/encoder.hpp:136-148 | When every container element takes at least a byte, the guard never refuses. |
| `Archive.RoundTrip` | include/grlx/rpc/encoder.hpp:176-204 | So every value of such a type survives the round trip. |
| `Archive.EveryValueSurvivesIff` | include/grlx/rpc/encoder.hpp:136-204 | Every value of a type survives the round trip if and only if container elements take at least a byte everywhere in it (for types of fewer than 2^64 - 65 bytes). |
| `Archive.KnownEncoding` | include/grlx/rpc/encoder.hpp:193-204 | One message byte for byte, in either byte order. |
| `Archive.LoadedIsSaved` | include/grlx/rpc/encoder.hpp:98-148 | On arbitrary bytes: a value that was loaded is of its type, and the bytes it was loaded from are exactly its encoding. |
| `Archive.DecodeIff` | include/grlx/rpc/encoder.hpp:176-191 | On arbitrary bytes: decode gives a value if and only if the bytes after the first begin with its encoding in the order the first names, and no container in it trips the guard given what follows. |
| `Archive.TruncatedNeverDecodes` | include/grlx/rpc/encoder.hpp:98-103 | No proper prefix of an encoding decodes to anything. |
| `Archive.EmptyElementsIff` | include/grlx/rpc/encoder.hpp:136-148 | A message holding a container of n zero-byte elements decodes if and only if n is at most 64. |
| `Archive.ValueBounded` | include/grlx/rpc/encoder.hpp:110-148 | On any bytes, the k-th count let through is at most what k prefixes leave plus 64, and the position never passes the end. |
| `Archive.DecodeAllocationBounded` | include/grlx/rpc/encoder.hpp:110-148 | On any N bytes and for any type: at most (N-1)/8 counts, the k-th at most N - 1 - 8k + 64, and all together a closed expression in N. |
| `Archive.SwapBytes` | include/grlx/rpc/encoder.hpp:103-107 | One element's bytes are reversed in place and the rest of the array is untouched. |
| `Archive.SwapElements` | include/grlx/rpc/encoder.hpp:103-107 | The loop reverses every element of the block. |
| `Archive.InputArchive.constructor` | include/grlx/rpc/encoder.hpp:74-93 | Consumes the byte-order byte; only 1 means no conversion. |
| `Archive.InputArchive.LoadBinary` | include/grlx/rpc/encoder.hpp:98-108 | Fails exactly when the bytes are not there; otherwise gives them, element by element in host order, and advances past them. |
| `Archive.InputArchive.LoadSizeTag` | include/grlx/rpc/encoder.hpp:141-148 | The guarded count of the specification. |
| `Archive.SameOrder` | include/grlx/rpc/encoder.hpp:98-108 | Without conversion a block is unchanged. |
| `Archive.BlockMatchesElements` | include/grlx/rpc/encoder.hpp:150-155 | Loading a vector of integers as one block gives what loading it element by element gives. |
| `StringHash.PrimeInvertible` | include/grlx/rpc/string_hash.hpp:25-29 | Multiplying by the prime is invertible modulo 2^64. |
| `StringHash.MixInjectiveInState` | include/grlx/rpc/string_hash.hpp:45-50 | For a fixed character a hash step is a bijection on states. |
| `StringHash.ProductInjective` | include/grlx/rpc/string_hash.hpp:45-50 | For a fixed state it is injective in what is mixed in. |
| `StringHash.SameSuffix` | include/grlx/rpc/string_hash.hpp:48-50 | Hashing on over the same text neither creates nor removes a collision. |
| `StringHash.HashAppends` | include/grlx/rpc/string_hash.hpp:48-50 | Hashing a concatenation is hashing its parts in turn. |
| `StringHash.NearMissNamesDiffer` | include/grlx/rpc/string_hash.hpp:45-50 | Names of equal length that differ in exactly one character never share a hash. |
| `StringHash.StringFormAgrees` | include/grlx/rpc/string_hash.hpp:36-50 | On a NUL-free name the NUL-terminated and the length-counted recursions agree. |
| `StringHash.AsciiIsFnv1a` | include/grlx/rpc/string_hash.hpp:45-50 | On ASCII names, and on every name where plain char is unsigned, the hash is FNV-1a as section 2 of draft-eastlake-fnv defines it, stated on its own. |
| `StringHash.AsciiNamesPortable` | include/grlx/rpc/string_hash.hpp:66-88 | The sign of plain char does not matter for ASCII names. |
| `StringHash.OneHighCharNotPortable` | include/grlx/rpc/string_hash.hpp:45-50 | It always matters for a name with exactly one character outside ASCII. |
| `StringHash.HashIsFnv1aIff` | include/grlx/rpc/string_hash.hpp:45-50 | The hash is FNV-1a on every name if and only if plain char is unsigned. |
| `StringHash.KnownHashes` | include/grlx/rpc/string_hash.hpp:25-50 | The hashes of the empty name, "a" and "foobar", the call id of "a", and the hash of one octet outside ASCII under either sign of plain char. |
| `StringHash.CallIdDistinguishes` | include/grlx/rpc/session.hpp:167-177 | Call ids collide exactly when hashes do. |
| `Dispatch.Dispatcher.constructor` | include/grlx/rpc/dispatcher.hpp:243-244 | An empty table and no callback. |
| `Dispatch.Dispatcher.Attach` | include/grlx/rpc/dispatcher.hpp:237-241 | Sets the entry at the name's call id and no other. |
| `Dispatch.Dispatcher.SetAuthCallback` | include/grlx/rpc/dispatcher.hpp:200-202 | Installs the callback. |
| `Dispatch.Dispatcher.EnforceAuth` | include/grlx/rpc/dispatcher.hpp:218-235 | Lets a call through exactly when it is public, no callback is installed, or the callback allows it and grants admin to an admin method. |
| `Dispatch.Dispatcher.IsAsync` | include/grlx/rpc/dispatcher.hpp:177-183 | True exactly for attached asynchronous entries. |
| `Dispatch.Dispatcher.DispatchSync` | include/grlx/rpc/dispatcher.hpp:160-164 | Looks up, gates, runs; an asynchronous entry refuses this path, but only behind the gate. |
| `Dispatch.Dispatcher.DispatchAsync` | include/grlx/rpc/dispatcher.hpp:171-175 | Looks up, gates, runs entries of both kinds. |
| `Dispatch.Dispatcher.DispatchRequest` | include/grlx/rpc/session.hpp:684-691 | A request is not found exactly when nobody attached its key, denied exactly when a callback refuses it or an admin method is called without admin, and otherwise run. |
| `Dispatch.GateDecides` | include/grlx/rpc/dispatcher.hpp:209-235 | Spelled out: public methods and tables without a callback are never denied; a refusing callback denies every other method; admin methods also need admin; authenticated ones do not; what is let through is run. |
| `Dispatch.TableHoldsLast` | include/grlx/rpc/dispatcher.hpp:237-241 | After any attaches a key holds the last entry attached under any name with that hash. |
| `Dispatch.UnattachedKey` | include/grlx/rpc/dispatcher.hpp:209-216 | A key nobody attached is absent. |
| `Dispatch.LastWithKey` | include/grlx/rpc/dispatcher.hpp:237-241 | A key that occurs in a history of attaches has a last occurrence. |
| `Dispatch.ReachesLatestIff` | include/grlx/rpc/dispatcher.hpp:209-241 | A name's call id reaches the entry attached last under it if and only if no later name has the same hash. |
| `Dispatch.ServesByName` | include/grlx/rpc/dispatcher.hpp:160-241 | Over names with distinct hashes a request for a name runs the handler attached last under it, if public, or no callback is installed, or the callback allows it and grants admin to an admin method; otherwise it is denied. |
| `Dispatch.UnknownNameNotFound` | include/grlx/rpc/dispatcher.hpp:209-216 | A name whose hash nobody attached is not found, whatever the gate. |
| `Dispatch.NearMissKeepsEntry` | include/grlx/rpc/dispatcher.hpp:237-241 | Attaching a name one character away never overwrites an entry. |
| `ClientCell.SynchronizedPtr.constructor` | include/grlx/rpc/client.hpp:44-45 | The cell starts null. |
| `ClientCell.SynchronizedPtr.Load` | include/grlx/rpc/client.hpp:47-50 | Gives what the cell holds. |
| `ClientCell.SynchronizedPtr.Store` | include/grlx/rpc/client.hpp:52-55 | Replaces it. |
| `ClientCell.SynchronizedPtr.Exchange` | include/grlx/rpc/client.hpp:57-61 | Replaces it and gives what was there. |
| `ClientCell.SynchronizedPtr.CompareExchange` | include/grlx/rpc/client.hpp:66-74 | Replaces it exactly when it is what was expected, and reports what was seen. |
| `ClientCell.CellSafe` | include/grlx/rpc/client.hpp:133-185 | In every run the cell is null or a published session neither completed nor closed. |
| `ClientCell.CompletionIsPrecise` | include/grlx/rpc/client.hpp:157-176 | A completion changes the cell exactly when it holds the completing session; a newer session stays. |
| `ClientCell.OrphanedIff` | include/grlx/rpc/client.hpp:133-185 | A step leaves a live session outside the cell exactly when it is a connect, failing or succeeding, that finds the cell holding it. |
| `ClientCell.FailedConnectOrphans` | include/grlx/rpc/client.hpp:139-143 | A run in which a failed connect does so. |
| `ClientCell.ClientObject.constructor` | include/grlx/rpc/client.hpp:76-78 | A new client has no session. |
| `ClientCell.ClientObject.Publish` | include/grlx/rpc/client.hpp:145-149 | Storing the new session is the publish step. |
| `ClientCell.ClientObject.ConnectFailed` | include/grlx/rpc/client.hpp:139-143 | Clearing the cell is the failed-connect step. |
| `ClientCell.ClientObject.Disconnect` | include/grlx/rpc/client.hpp:362-371 | Takes the session out and hands it over for closing. |
| `ClientCell.ClientObject.OnComplete` | include/grlx/rpc/client.hpp:157-176 | The completion handler is the completion step, whether or not its session could still be locked. |

## Left out

- TLS (`ssl_channel.hpp`, context setup) and sockets (`tcp_channel.hpp`, address parsing): a handshake succeeds or fails within some time, a stream is a sequence of bytes.
- Logging, the buffer pool (unused by client, server and session), performance counters, session hooks, move constructors.
- Executors, coroutine frames, object lifetimes and the thread-local call context: atomic steps and FIFO strands stand for them.
- cereal beyond the byte format of unsigned integers, strings, vectors and tuples: signed and floating-point numbers, maps and classes use the same fixed-width bytes and counts.
- The archive's unbounded mode, used when the stream length cannot be measured: a buffer in memory can always be measured.
- A decode failure that a handler's wrapper ignores, calling the function with default arguments: in `Dispatch` a handler is any function of its request bytes.
- `register_handler`, `async_operation` and the asynchronous-call specialisation's own coroutine: not on the path of `session::call`, or a handler run like any other.
- The dispatch overloads without a context, used for incoming notifications, and the registration of notification handlers; the gate is stated for requests.
- Idle and message read timeouts, except as a read that fails at any time; changing server limits while running; server-side broadcast of notifications.
- The 32-bit hash and the hash of a null `const char*`.
- Rounding: the token bucket is over reals, so an envelope may be off by accumulated rounding in `double`.
- Attaching handlers while a session runs: `EndToEnd` takes one table for the whole run, though the identity may differ from run to run.
