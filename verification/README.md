# wirefan: what is proved about the fan-out server and its client

wirefan is a WebSocket fan-out server written in Go, with a reconnecting TypeScript client. This
project models the parts of it whose correctness depends on interleavings, on arithmetic bounds
or on exact text formats, and proves what they are for. `dafny verify dfyconfig.toml` checks it.

Every concurrent piece appears twice. A state machine, one step per critical section, channel
operation, promise continuation, timer or frame, carries an invariant that every step keeps; its
theorems quantify over all runs. Beside it stands the object itself, a class with the source's
fields whose methods are proved against the machine's functions or against a specification of
their own.

| files | what they model |
|---|---|
| `ClientWire.dfy`, `ClientTasks.dfy`, `ClientObject.dfy` | the client: pending operations and the two FIFO directions of the socket; every asynchronous call, timer and reconnect around them; the `WirefanClient` object |
| `ClientHeld.dfy`, `ClientLost.dfy` | when a confirmed record means that the server holds the channel, exactly; and when the answers under way can leave it lost |
| `ClientRecovers.dfy` | that a live channel can always come back on the connection it is on |
| `ClientAnswers.dfy` | both ends together: a subscribe that ends in a handle, an unsubscribe that lets go, and which refusals are worth retrying |
| `ClientInputs.dfy` | step by step, how a client gets to what the client theorems exempt |
| `ChannelRuns.dfy`, `Registry.dfy`, `Handler.dfy` | channels, the two registries, Sweep, and a connection's subscribe, unsubscribe and exit: interleaved, and as objects |
| `Fanout.dfy`, `Delivery.dfy` | inline and worker-pool broadcast with the 64-slot buffers and the draining Close: interleaved, and as objects |
| `HubRuns.dfy`, `Hub.dfy` | the hub: upgrades, revokes and Drain interleaved, and the hub as an object |
| `Schema.dfy`, `Migrate.dfy` | the check on an unversioned database, and the migration runner for one opener and for many |
| `Text.dfy`, `Token.dfy`, `Replay.dfy` | decimal, hex and base64url text; subscribe tokens; single use under sweeping |
| `RateLimit.dfy` | token buckets, one socket in front of its key, and all sockets of a key |
| `Eviction.dfy` | the limiter with its collector: concurrent calls and collections interleaved, and the object |
| `Diagram.dfy` | the slot allocator of the demo page's diagram |

Reading notes.

- The client machine over-approximates the scheduler: a settled promise may be noticed at any
  later step, and a loop that skips an entry takes a step for it. In `Fanout`, `Conn.sendMu` is
  not modelled, so more interleavings of two broadcasts to one connection are covered than occur.
- `tainted` in `ClientWire` marks a channel on which, on this connection, an unsubscribe was
  refused or a reply was lost (the server drops a reply when its send buffer is full).
  `abandoned` in `ClientTasks` holds records whose `authorize()` itself threw a definitive refusal
  or a `ConnectionClosedError`.
- A lane in `Fanout` is whatever broadcasts one job at a time: a worker of the sharded pool or,
  inline, the publisher. A log entry names a lane and a position in that lane's history.
- A `char` in `Text` and `Token` stands for one byte of a Go string.

Where the code and its own comments differ, the code is modelled.

- `internal/hub/hub.go:31-33` says `draining` is set in the same critical section as Drain's
  snapshot. The code uses two (lines 126-129). `HubRuns.DrainMissesNobody` holds all the same.
- `internal/store/migrate.go:335-341` says an unversioned database is accepted only if it has no
  tables or exactly one table, keys, of the v0.2.0 shape. The query filters with
  `NOT LIKE 'sqlite_%'`, where `_` matches any character, and shapes are compared as text.
  `Schema.AcceptedMeans` gives the exact condition under which a database that passes is of
  the kind the comment describes; `Schema.ForeignTablePasses` and `Schema.OddNamePasses` are databases that
  pass and are not.
- The bucket parameters are meant to keep 36 tokens between a key and one of its sockets. Each frame
  reads the clock twice, once per bucket, and refill between the two readings costs up to one of
  them: `RateLimit.SlackKeptIff` gives what is kept for every gap, 36 only when the readings agree.
- A confirmed record does not always mean that the server holds the channel: an ack confirms whatever
  record it finds, although an unsubscribe of the channel may still be under way.
  `ClientHeld.GroundedIffNoOverlap` says in which runs it does, `ClientLost.LostIffCrossing` from which
  states the channel can be lost for good, and `ClientInputs` has two routes there.
- A replay-cache sweep and the expiry check both include the millisecond a token expires in, and the
  check comes before the cache, so a token can be accepted twice
  (`Replay.SweepInExpiryMillisecond`). `Replay.RepeatAccepted` says exactly when.
- `Allow` marks its entry seen at one clock reading and charges the bucket at a later one, so
  `burst <= rps * ttl` does not suffice for eviction to be unobservable. `Eviction.ObservableIffShort`
  and `Eviction.RateWindowIff` give the condition for every gap between the two; with 100 a second, a
  burst of 200 and an hour it holds for calls that take up to 3598 seconds.

## Model

| member | source | states |
|---|---|---|
| ClientWire.NoOrphan | clients/js/src/index.ts:737-767 | on one connection, with any ack timeouts, late acks, unsubscribes and refusals: when nothing about an untainted channel is in flight, the server holds it only if the client has a confirmed record for it, and no operation for it is pending |
| ClientWire.UndoneLaterAccounted | clients/js/src/index.ts:744-752 | when an ack settles a subscribe and an unsubscribe of the channel is still pending behind it, that unsubscribe is still on its way to the server, or its ack on its way back |
| ClientWire.ReceiveKeeps | clients/js/src/index.ts:689-767 | the joint invariant over frames in both directions, the order of #pending and what the server holds survives any reply, the raw undo unsubscribe and a definitive refusal's deletion included |
| ClientWire.ServeKeeps | internal/conn/handler.go:148-281 | the same invariant survives the server handling its next frame with any answer, lost replies included |
| ClientWire.TimeoutKeeps | clients/js/src/index.ts:1121-1129 | and an ack timeout at any moment |
| ClientWire.UndoIff | clients/js/src/index.ts:737-767 | a reply is answered with an undo unsubscribe exactly when it acks a subscribe whose channel has no record and behind whose operation no unsubscribe of the channel is pending |
| ClientWire.ForgetMeans | clients/js/src/index.ts:700-716 | a forgotten record loses its name and its timer, keeps its handlers and remembers what it was refused for |
| ClientTasks.StepKeeps | clients/js/src/index.ts:401-1143 | every continuation, timer, socket event, user call and server reply keeps the client invariant: whose attempt is in flight for which record on which connection, who waits for whom, and what covers each name |
| ClientTasks.NoOrphanSubscription | clients/js/src/index.ts:737-767 | over whole runs with drops and reconnects: an untainted channel with nothing in flight is held by the server only under a confirmed record, and nothing is pending for it |
| ClientTasks.NoLostChannel | clients/js/src/index.ts:869-943 | over whole runs: while the socket is open the record of every live handle is confirmed, being resubscribed, has its retry timer armed, or has its place in #resubscribeAll's list, unless authorize() refused it; and a busy #resubscribeAll waits for a #resubscribe that exists |
| ClientRecovers.NeverStuck | clients/js/src/index.ts:869-943 | and it is never stuck: from every state of every run with the socket open, steps of that connection alone, with acks, authorize() resolving, timers and continuations but no new refusal and no call by the user, lead to the same handle live and its record confirmed, unless authorize() had refused it |
| ClientTasks.LiveHandlesSurvive | clients/js/src/index.ts:994-1052 | in one step a live handle with a handler dies only by its own unsubscribe(), a definitive refusal of its channel, close(), or a drop that may not retry |
| ClientTasks.TokensStayOnTheirSocket | clients/js/src/index.ts:1086-1106 | every subscribe frame carrying a token went out on the connection whose socket id authorize() was given, over all drops and reconnects during the await |
| ClientTasks.AdoptLoopBounded | clients/js/src/index.ts:986-1027 | each further pass of subscribe's adopt loop needs a strictly newer epoch, so the passes never outnumber the connections |
| ClientTasks.SubscribeStarts | clients/js/src/index.ts:978-988 | subscribe() registers the caller's handler and then either hands out an active handle at once, exactly when the channel is confirmed, or awaits the attempt in flight for the channel's record |
| ClientTasks.CallReturns | clients/js/src/index.ts:986-1027 | after its await subscribe() hands out an active handle, and changes nothing else, exactly when what it awaited ended well; otherwise it hands out none and awaits a newer attempt or has taken the caller's handler off again |
| ClientTasks.HandsOutConfirmed | clients/js/src/index.ts:986-1052 | the handle it hands out for the channel's record is live, its handler is registered, and the channel is confirmed if the attempt was this connection's |
| ClientTasks.OnlyResumeEnds | clients/js/src/index.ts:955-1027 | nothing but its own continuation ends a subscribe(), whatever user call, drop, close, reply or timer comes |
| ClientTasks.FailedForgets | clients/js/src/index.ts:1009-1024 | a subscribe() that fails forgets the record exactly if it is still the channel's, unconfirmed and nobody else's |
| ClientTasks.UnsubscribeLeaves | clients/js/src/index.ts:1040-1050 | unsubscribe() spends the handle; a second one, or one for a record that is no longer the channel's, does nothing else, and with other handlers left only its own goes |
| ClientTasks.UnsubscribeReleases | clients/js/src/index.ts:1040-1050 | the last handler's unsubscribe() forgets the record and, connected on an open socket, sends one unsubscribe frame |
| ClientTasks.CloseMeans | clients/js/src/index.ts:537-563 | after close() the client is closed: no socket, nothing pending, no channel, and no handler or timer on any record that was a channel's |
| ClientTasks.LastDropMeans | clients/js/src/index.ts:797-844 | the same after a drop with no attempt left |
| ClientTasks.DropMeans | clients/js/src/index.ts:797-844 | a drop with an attempt left keeps every channel and its handlers, unconfirmed, without attempt or timer |
| ClientTasks.ClosedForGood | clients/js/src/index.ts:537-563 | a closed client stays closed, without a channel, and sends nothing, whatever is still under way |
| ClientTasks.AttemptsAreShared | clients/js/src/index.ts:1072-1084 | a confirmed record and one with an attempt in flight start nothing, and the attempt in flight is what is awaited |
| ClientTasks.FinallySparesOthers | clients/js/src/index.ts:1075-1081 | the end of an attempt clears its own slot at most |
| ClientTasks.RetryMeans | clients/js/src/index.ts:926-943 | a retry timer is spent by firing, and starts nothing on another connection or for a record that is no longer the channel's |
| ClientTasks.ResubMeans | clients/js/src/index.ts:898-919 | a #resubscribe is tried again exactly after a passing failure, for a record still the channel's, on the connection it began on |
| ClientTasks.AbandonedBecause | clients/js/src/index.ts:1092-1106 | a record is exempt from NoLostChannel only after authorize() itself threw, for it, a definitive refusal or a ConnectionClosedError |
| ClientHeld.ConfirmedIsHeld | clients/js/src/index.ts:737-767 | over whole runs: as long as the client takes no ack that finds a record of the channel while an unsubscribe of it, the user's or an undo, is on its way to the server or is the last word on its way back, an untainted confirmed channel is held by the server and no unsubscribe of it is under way |
| ClientHeld.BreaksIffOverlap | clients/js/src/index.ts:753-756 | one step, whatever it is, ends that for a channel if and only if it takes such an ack |
| ClientHeld.GroundedIffNoOverlap | clients/js/src/index.ts:737-767 | so confirmed means held with no unsubscribe on its way, in all states of a run up to the n-th, if and only if none of the steps before it takes such an ack |
| ClientHeld.QuietMeansAgreed | clients/js/src/index.ts:737-767 | in such runs an untainted channel with nothing in flight on an open socket is held by the server if and only if the client has it confirmed |
| ClientHeld.TaintedBecause | internal/conn/handler.go:251-302 | a channel is exempt as tainted only after the server refused an unsubscribe of it, or a reply about it was lost, on that connection |
| ClientLost.OverlapCanLose | clients/js/src/index.ts:753-756 | from any client about to take such an ack, nothing but answers to what is under way, no drop, no call by the user and no timer, can leave the connection silent with the channel confirmed, untainted and not held |
| ClientLost.LostIffCrossing | clients/js/src/index.ts:689-767 | from any state where confirmed is held, such answers can leave the channel lost if and only if they can bring such an ack, and if and only if the client has a record, no refusal under way will make it forget it first, and a subscribe of the channel is under way with an unsubscribe behind it |
| ClientLost.QuietCannotLose | clients/js/src/index.ts:737-767 | so a channel about which nothing is under way cannot be lost by answers |
| ClientInputs.ReconnectLoses | clients/js/src/index.ts:1040-1050 | one route to a lost channel, from any client with a live public channel of one handler, each step given: a reconnect, the resubscribe, an unsubscribe() and a new subscribe() all unanswered, the ack of the first, the unsubscribe handled, the last turned away |
| ClientInputs.LateAcksLose | clients/js/src/index.ts:757-763 | another, from any quiet client, on one connection and without any unsubscribe(): two subscribes time out, the first late ack sends an undo, the second confirms the record of a third subscribe, the undo is handled and the third turned away |
| ClientInputs.LostAckOrphans | internal/conn/handler.go:296-302 | why a lost reply taints, from any quiet client: a subscribe times out and fails, its ack is dropped, and with nothing in flight the server holds a channel the client does not know |
| ClientInputs.RefusedUnsubscribeOrphans | internal/conn/handler.go:251-266 | why a refused unsubscribe taints: from any quiet client with a held channel of one handler, unsubscribe(), the refusal with any code and its arrival, three steps, end the same way |
| ClientInputs.RefusedAuthorizeLoses | clients/js/src/index.ts:898-919 | why a record is abandoned: a reconnect, authorize() throwing a definitive refusal or a ConnectionClosedError, and the continuations, seven steps, leave the live handle's record neither confirmed nor resubscribing nor armed nor listed |
| ClientAnswers.TokenChannels | internal/conn/handler.go:88-106 | client and server agree, for every name, on whether the channel takes a token |
| ClientAnswers.TransientIffBucketEmpty | clients/js/src/index.ts:333-351 | whatever the server refuses a subscribe for, the client takes the code of the refusal for a passing one if and only if the name was valid and open and a bucket was empty |
| ClientAnswers.UnknownCodes | clients/js/src/index.ts:333-351 | a code the server does not have is a passing one unless it begins with LIMIT_ |
| ClientAnswers.SubscribeGrants | clients/js/src/index.ts:955-1052 | from any quiet connected client, subscribe() on a public channel, the ack, the finally and the continuation, each step given, end in a live handle whose handler is the record's only one, the record confirmed and the channel held by the server |
| ClientAnswers.AuthorizedGrants | clients/js/src/index.ts:1086-1142 | the same on a channel that takes a token, once authorize() has resolved |
| ClientAnswers.UnsubscribeLetsGo | clients/js/src/index.ts:1040-1050 | the last handle's unsubscribe(), acked, leaves neither side with the channel and nothing under way |
| ClientAnswers.EmptyBucketRetries | clients/js/src/index.ts:898-919 | a live record whose resubscribe the server refuses for an empty bucket stays its channel's and, once the refusal is noticed, has its retry timer armed |
| ClientObject.WirefanClient.FindPending | clients/js/src/index.ts:737-740 | the first pending operation of that kind and channel, or -1 |
| ClientObject.WirefanClient.SettleOp | clients/js/src/index.ts:737-767 | an ack changes the client exactly as the wire machine says: promise, record, and the undo unsubscribe |
| ClientObject.WirefanClient.PendingIndexFor | clients/js/src/index.ts:717-735 | the first operation the frame names; -1 if it names something else; and for a frame that names nothing the oldest pending subscribe, if the code is one of those |
| ClientObject.WirefanClient.OnErrorFrame | clients/js/src/index.ts:689-716 | any error frame settles at most that one operation, rejects its promise and, if definitive and unconfirmed, forgets its record |
| ClientObject.BlamedMeans | clients/js/src/index.ts:717-735 | a frame that names a subscribe or unsubscribe settles an operation of that kind on that channel, or none if there is none; one that names a publish, or a channel and no operation, settles nothing |
| ClientObject.UnnamedRefusalFindsItsOp | clients/js/src/index.ts:730-734 | a refusal by an older server, which names nothing, settles the subscribe it answers as long as that one is pending and the oldest pending subscribe is of an untainted channel |
| ClientObject.WirefanClient.SendSubscribe | clients/js/src/index.ts:1086-1142 | up to its first await: authorize with the current socket id, or push and send, or fail |
| ClientObject.WirefanClient.EnsureSubscribed | clients/js/src/index.ts:1072-1084 | confirmed records need nothing, an attempt in flight is shared, otherwise a new one becomes the record's |
| ClientObject.WirefanClient.Subscribe | clients/js/src/index.ts:955-988 | throws, with nothing touched, when not connected, on a name over 128 bytes, or without authorize() for a private name, in that order; otherwise takes the machine's step up to its first await |
| ClientObject.WirefanClient.AuthorizeResolved | clients/js/src/index.ts:1092-1106 | a token is sent only on the connection, by epoch, that it was asked for |
| ClientObject.WirefanClient.AttemptFinally | clients/js/src/index.ts:1075-1081 | only the record's own attempt clears the slot |
| ClientObject.WirefanClient.SubscribeFailed | clients/js/src/index.ts:1009-1024 | the call's handler goes, and its record only if still the channel's, unconfirmed and unhandled; a cut-short call throws the record's refusal if there is one, any other what it caught |
| ClientObject.WirefanClient.SubscribeResumes | clients/js/src/index.ts:986-1027 | after its await a call hands out an active handle and throws nothing exactly when its wait ended well; otherwise no handle is handed out, and it throws exactly if it does not adopt the attempt of a newer connection, which takes being cut short, connected in another epoch, with the record still the channel's |
| ClientObject.WirefanClient.Unsubscribe | clients/js/src/index.ts:1040-1050 | the handle is spent; the last handler forgets the record and tells the server |
| ClientObject.WirefanClient.ResubscribeResumes | clients/js/src/index.ts:898-919 | a transient failure of a still current record on the same connection arms the retry timer |
| ClientObject.WirefanClient.RetryFires | clients/js/src/index.ts:926-943 | the timer restarts the resubscribe only on its own connection and for the record that is still the channel's |
| ClientObject.WirefanClient.RestoreNext | clients/js/src/index.ts:869-884 | #resubscribeAll takes its next channel, skips one that is gone, or stops on another epoch |
| ClientObject.WirefanClient.OnConnected | clients/js/src/index.ts:651-670 | a new epoch and socket id, and #resubscribeAll on every connected frame but the first |
| ClientObject.WirefanClient.OnDrop | clients/js/src/index.ts:797-844 | every pending promise rejects; the client closes exactly when reconnecting is off or as many drops in a row as maxAttempts came before this one; otherwise every record survives unconfirmed without attempt or timer and the attempt is counted |
| ClientObject.WirefanClient.Close | clients/js/src/index.ts:537-563 | every pending promise rejects and every record, handler and timer goes |
| ClientObject.WirefanClient.AckTimedOut | clients/js/src/index.ts:1121-1125 | exactly the timed-out operation leaves #pending, and its promise rejects |
| ClientObject.WirefanClient.OnEvent | clients/js/src/index.ts:401-1143 | the object keeps the invariant of every client theorem, and takes the machine's step, whatever user call, socket event, timer or settled promise it handles next |
| ChannelRuns.StepKeeps | internal/registry/sweep.go:29-46 | every critical section of any number of subscribes, unsubscribes, exits and sweeps keeps the joint invariant of registry, channels, locks and program counters |
| ChannelRuns.OneLiveChannel | internal/registry/sweep.go:29-46 | in every run two connections holding a name hold the same channel, which is live, is the registry's entry and lists both |
| ChannelRuns.DeletedNeverHandedOut | internal/registry/registry.go:13-20 | a channel with subscribers is not Deleted and is its name's entry, and no entry is Deleted |
| ChannelRuns.DeletedStays | internal/registry/sweep.go:40 | Deleted is never taken back |
| ChannelRuns.TwoSided | internal/conn/handler.go:161-209 | c.subs lists only channels that list c; between frames the converse; at most 64 channels and 10 000 subscribers; after Run nobody references the connection |
| ChannelRuns.RetryExhaustion | internal/conn/handler.go:187-206 | SUBSCRIBE_FAILED means three distinct channels of that name were each swept while that one call ran |
| ChannelRuns.TryMeans | internal/hub/channel.go:23-34 | one hub.Subscribe joins exactly a live channel with room, and only that channel gains only that connection; a full one ends the frame; a swept one is tried again, the third time in vain |
| ChannelRuns.FramesBegin | internal/conn/handler.go:148-281 | how a connection, a subscribe, an unsubscribe and an exit begin |
| ChannelRuns.ConnAdvances | internal/conn/handler.go:184-206 | every step of a subscribe, unsubscribe or exit brings it nearer to its end, retries included |
| ChannelRuns.ConnMoves | internal/conn/handler.go:184-206 | and such a step is enabled unless a sweeper is inside a channel's lock |
| ChannelRuns.SweeperAdvances | internal/registry/sweep.go:29-46 | a sweeper inside the lock goes through with it: the entry is gone, then Deleted is set, then the lock is free |
| Registry.Channel.Subscribe | internal/hub/channel.go:23-34 | Deleted before the cap, and exactly one subscriber more or an unchanged set |
| Registry.ShardedReg.GetOrCreate | internal/registry/sharded.go:31-47 | for any hash, sixteen shards behave as one flat map: the entry, or a fresh channel that becomes it |
| Registry.ShardedReg.InsertIfAbsent | internal/registry/sharded.go:39-46 | the re-check under the write lock hands out whatever entry appeared since the lookup |
| Registry.ShardedReg.CompareAndDelete | internal/registry/sharded.go:64-73 | removes the name exactly when it still maps to that channel, and says so |
| Registry.ShardedReg.Len | internal/registry/sharded.go:96-104 | the shard sizes add up to the size of the flat map |
| Registry.SyncMapReg.GetOrCreate | internal/registry/syncmap.go:9-16 | the LoadOrStore registry has the same contract over the same flat map |
| Registry.SyncMapReg.CompareAndDelete | internal/registry/syncmap.go:28-30 | as for the sharded one |
| Registry.RangeVisits | internal/registry/sharded.go:79-94 | though the registry changes at will between two shards' copies, a channel is visited once if it was its name's entry when its shard was copied and otherwise not at all |
| Registry.Sweep | internal/registry/sweep.go:29-46 | a quiescent Sweep leaves exactly the channels with subscribers, marks exactly the removed ones Deleted and returns their number |
| Registry.SweepMapped | internal/registry/sweep.go:29-46 | the same over the sync.Map registry, in whatever order its entries are visited |
| Handler.Conn.HandleSubscribe | internal/conn/handler.go:108-210 | which answer, in the code's order, and that only a successful subscribe changes anything, by one entry on each side |
| Handler.NameMeans | internal/conn/handler.go:30-106 | which names are valid, reserved and in need of a token, in terms of their characters |
| Handler.BeforeMeans | internal/conn/handler.go:108-183 | each refusal before the registry is touched, with exactly the condition under which it is the answer |
| Handler.SubscribeMeans | internal/conn/handler.go:108-210 | the connection gains the channel if and only if it did not hold it, the name is valid and open to clients, both buckets admitted the frame, the token is good where one is needed, fewer than 64 channels are held, and the channel was live with fewer than 10 000 subscribers; Ack means it is held |
| Handler.Conn.HandlePublish | internal/conn/handler.go:108-233 | a publish goes through exactly for a held channel that is not reserved with both buckets admitting it; each refusal with its exact condition |
| Handler.AnswerKeeps | internal/conn/handler.go:161-209 | whatever the answer, subs and Subscribers stay in step and subs within 64; an ack means the channel is held |
| Handler.Conn.HandleUnsubscribe | internal/conn/handler.go:108-281 | each answer with its exact condition; an admitted unsubscribe of a valid name is always acked and leaves both sides without the entry |
| Handler.Conn.Cleanup | internal/conn/conn.go:263-277 | closed is set and no held channel lists the connection any more |
| Fanout.StepKeeps | internal/fanout/sharded.go:40-84 | every step of publishers, workers, closers, policies, clients and write pumps keeps the fanout invariant |
| Fanout.PerSubscriberFifo | internal/hub/channel.go:52-62 | for both fanouts: what enters a subscriber's buffer from one publisher on one channel does so in publish order and never twice |
| Fanout.SameOrderForAll | internal/fanout/sharded.go:57-64 | the sharded pool gives any two subscribers the events of a channel in one relative order, whoever published them |
| Fanout.LoggedWasPublished | internal/hub/channel.go:52-62 | every delivered event is a publish that was handed to its lane, delivered to a subscriber of its snapshot |
| Fanout.SkippedWasSignalled | internal/conn/handler.go:359-375 | under PolicyDisconnect an event is withheld only from a connection already told to close, or closed |
| Fanout.FinishedReachedAll | internal/hub/channel.go:52-62 | a broadcast that is over reached each subscriber of its snapshot exactly once, or skipped it |
| Fanout.SubscribersGetIt | internal/hub/channel.go:52-62 | whoever is subscribed to the channel in every state from a publish's beginning until its broadcast is over has the event exactly once, or was skipped |
| Fanout.OthersDoNot | internal/hub/channel.go:52-62 | and whoever is subscribed in none of those states never gets it |
| Fanout.SubscribedIff | internal/hub/channel.go:23-40 | a connection is subscribed to a channel exactly from a Subscribe until the next Unsubscribe |
| Fanout.PublishedIsHanded | internal/fanout/sharded.go:57-64 | a publish is on its way to its lane, or in the queue of its own lane, or found the pool closed |
| Fanout.SkippedBecause | internal/conn/policy.go:14-64 | a subscriber is skipped only when closed or with 64 frames buffered, under DropOldest only when full again after an eviction |
| Fanout.SignalledBecause | internal/conn/handler.go:359-375 | a connection is told to close as a slow consumer only under PolicyDisconnect by an event that found its buffer full |
| Fanout.EvictionMakesRoom | internal/conn/policy.go:26-45 | a DropOldest try right after its eviction delivers |
| Fanout.BufferCounts | internal/conn/policy.go:14-64 | what a buffer holds is what entered it less what was written or evicted |
| Fanout.NoSendOnClosedQueue | internal/fanout/sharded.go:57-64 | whoever is at the send on a queue, blocked on a full one included, the queues are open |
| Fanout.CloseDrains | internal/fanout/sharded.go:66-84 | once Close has returned, every job ever enqueued was broadcast, exactly once to each subscriber of its snapshot |
| Fanout.ClosedIsDrained | internal/fanout/sharded.go:66-84 | a closed pool has a Close that is draining it or has come back from doing so |
| Fanout.LaterBroadcastsAreNoOps | internal/fanout/sharded.go:60-62 | once closed is set it stays set and no queue ever gains a job |
| Fanout.CloseNeverStuck | internal/fanout/sharded.go:66-84 | until Close has returned some pool step is enabled, with full queues and blocked senders included |
| Fanout.CloseFinishes | internal/fanout/sharded.go:66-84 | whatever else runs, a Close sees at most as many pool steps as the measure it started with: queued jobs, readers already inside, sends under way |
| Delivery.ApplyPolicy | internal/conn/policy.go:14-64 | what each policy leaves in the buffer and when it reports a slow consumer |
| Delivery.BurstKeeps | internal/conn/policy.go:26-64 | with no reader, DropOldest keeps the newest 64 frames of any burst and the other two the oldest 64, in order |
| Delivery.Outbox.Send | internal/conn/handler.go:359-375 | a closed connection takes nothing; under PolicyDisconnect a frame is withheld only with the close requested |
| Delivery.Broadcast | internal/hub/channel.go:52-62 | each snapshotted subscriber is sent the frame exactly once |
| Delivery.ShardedPool.Broadcast | internal/fanout/sharded.go:57-64 | one job more on the channel's own shard, after room is made if it was full; nothing once closed |
| Delivery.ShardedPool.Close | internal/fanout/sharded.go:66-84 | every accepted job is broadcast in order and none twice; a second Close does nothing |
| HubRuns.AdmissionBarrier | internal/hub/hub.go:52-70 | in every run, once a key is closed or the hub draining, each affected connection is not yet added and will be refused, was refused, was sent a close or has its close goroutine started, is about to have one started, or has left |
| HubRuns.RevokeIsFinal | internal/server/rest.go:148-164 | when a revoke has answered, every tracked connection of its key was sent a close, or the goroutine that sends it has been started |
| HubRuns.DrainMissesNobody | internal/hub/hub.go:122-131 | when Drain has gone through its snapshot, every tracked connection was sent a close or has its close goroutine started, although flag and snapshot are separate critical sections |
| HubRuns.ToldStays | internal/hub/hub.go:107-109 | a close that was started stays under way until it is sent, whatever else runs, and a sent one stays sent |
| HubRuns.TrackedShrinks | internal/hub/hub.go:97-145 | from the closing of a key, or the draining flag, the connections it affects only become fewer |
| HubRuns.DrainLeavesNobody | internal/hub/hub.go:133-144 | Drain returns with nobody tracked, or everybody still tracked force-closed |
| HubRuns.AddedIff | internal/hub/hub.go:52-63 | an upgrade that reaches Add is tracked if and only if no Drain had set the flag and no CloseKey of its key had run, and refused otherwise |
| HubRuns.LookedUpIff | internal/server/upgrade.go:252-270 | the look-up lets an upgrade pass if and only if the store had not been told of a revoke of its key |
| HubRuns.RevokedNeverTracked | internal/server/rest.go:148-164 | an upgrade that looks its key up after the store was told of the revoke is never tracked, even before CloseKey has run |
| HubRuns.OnlyTheRevokedAreTold | internal/hub/hub.go:97-131 | a connection is told to close only if a Drain had begun or its own key was closed |
| HubRuns.RefusedIsSent | internal/hub/hub.go:52-63 | whoever Add refused is sent its close before it is gone |
| HubRuns.RevokeAdvances | internal/hub/hub.go:97-111 | each step of a revoke tells one more connection or ends it |
| HubRuns.RevokeMoves | internal/server/rest.go:148-164 | and until it has ended one is enabled |
| HubRuns.DrainAdvances | internal/hub/hub.go:122-145 | each step of a Drain deals with one more connection of its stage or goes on to the next stage |
| HubRuns.DrainMoves | internal/hub/hub.go:122-145 | and until it has returned one is enabled |
| Hub.Hub.Add | internal/hub/hub.go:52-63 | tracked exactly when neither draining nor on a closed key, with the drain's close before the key's |
| Hub.Hub.CloseKey | internal/hub/hub.go:97-111 | the close is started for exactly the tracked connections of the key, once each, counted, and the key stays closed |
| Hub.Hub.DrainSend | internal/hub/hub.go:126-131 | the flag is set and the going-away close is started for everyone tracked |
| Hub.Hub.DrainForce | internal/hub/hub.go:137-141 | when the grace is over everyone still tracked is torn down |
| Hub.TrackedConn.CloseFrame | internal/hub/hub.go:107-109 | whichever started goroutine runs next sends its own close, and only that one |
| Schema.AcceptedMeans | internal/store/migrate.go:342-404 | every database made of SQLite's own tables and a v0.2.0 keys table passes the check; one that passes is such a database if and only if no table or keys column has an odd name |
| Schema.PreVersioningMeans | internal/store/migrate.go:342-369 | the check passes exactly when every table is one that LIKE hides or a keys table that prints right |
| Schema.FormatInjective | internal/store/migrate.go:408-421 | on names without space and comma the text form of two column lists agrees exactly when names and flags do |
| Schema.LikeMeans | internal/store/migrate.go:343 | the LIKE pattern hides exactly the names of seven characters or more that begin "sqlite" in any case |
| Schema.OddNamePasses | internal/store/migrate.go:399 | a keys table of one column, named like the whole list, passes |
| Schema.ForeignTablePasses | internal/store/migrate.go:343 | a table named sqliteX passes |
| Migrate.ValidateMigrations | internal/store/migrate.go:108-115 | true exactly for versions 1, 2, 3 and so on |
| Migrate.Database.Migrate | internal/store/migrate.go:216-234 | every refusal writes nothing; otherwise the database ends as the fold of the list up to its version, the last one unless the step after it fails |
| Migrate.MigrationFold | internal/store/migrate.go:272-321 | with any number of openers crashing or failing anywhere, every committed database is the start with migrations up to its version applied once each in order, and the version never falls |
| Migrate.SuccessIsLatest | internal/store/migrate.go:216-234 | once an opener has succeeded the database is the whole fold |
| Migrate.OwnFilesNeverRefused | internal/store/migrate.go:236-270 | a file that began empty or as v0.2.0 is never refused, by any opener, at any point of anyone's migration |
| Migrate.RefusedFilesUntouched | internal/store/migrate.go:117-121 | a file from the future, or an unversioned one that fails the check, is never written |
| Migrate.BaselineConverges | internal/store/migrate.go:54-84 | with the shipped list an empty and a v0.2.0 file both end at version 1 with exactly a v0.2.0 keys table, the latter's own untouched |
| Migrate.StopsBecause | internal/store/migrate.go:216-321 | an opener fails only by a crash or by its own migration not applying, and is refused exactly by a check that fails |
| Migrate.OpenerAdvances | internal/store/migrate.go:216-321 | each step of an opener brings it nearer to its end and moves nobody else |
| Migrate.OpenersNeverStuck | internal/store/migrate.go:272-321 | in every state of every run an unfinished opener has such a step, or another one holds the write lock and has |
| Text.ParseDec | internal/auth/token.go:45 | decimal text of an int64 parses back |
| Text.ParsesOnlyDecimal | internal/auth/token.go:89-100 | and nothing parses but an optional sign and at least one digit, to the number they spell, in the range of 64 bits |
| Text.B64RoundTrip | internal/auth/token.go:45 | raw base64url decodes back to the same bytes, for any length |
| Text.HexInjective | internal/auth/token.go:42 | distinct bytes have distinct hex |
| Text.DecodesOnlyText | internal/auth/token.go:108 | what base64url decodes is text of its alphabet, line breaks aside, of a length that can be |
| Token.MacPayloadInjective | internal/auth/token.go:60-62 | no two different (expiry, socket, channel, jti) share a MAC input, over all strings |
| Token.SignedVerifies | internal/auth/token.go:36-120 | a signed token splits, parses and verifies for its own pair exactly until its expiry millisecond is over, whatever the MAC |
| Token.SignedVerifiesOnlyForItsPair | internal/auth/token.go:89-113 | with an injective MAC it verifies exactly for the socket and channel it was signed for, in time |
| Token.TokenBindsOnePair | internal/auth/token.go:89-113 | with an injective MAC no string whatever verifies for two different pairs |
| Token.ClaimsAreSigned | internal/auth/token.go:48-59 | a genuine token's expiry, jti, socket and channel are those its MAC was made over |
| Token.FreshTokensDiffer | internal/auth/token.go:34-36 | two calls that drew different random bytes give different tokens and jtis |
| Token.ValidJTI | internal/auth/token.go:66-77 | exactly the 32-character lower-case hex strings |
| Token.VerifyTokenAgainst | internal/auth/token.go:89-120 | each error in the code's order, and a jti is recorded only by a token that is good otherwise |
| Token.ReplayCache.Sweep | internal/auth/token.go:147-159 | exactly the entries whose expiry is reached go, counted |
| Replay.RepeatAccepted | internal/auth/token.go:98-159 | with checks, records and sweeps interleaved at will: a token presented again and not accepted in between is accepted if and only if a sweep whose clock reading had reached its expiry was at the cache in between |
| Replay.RepeatInTime | internal/auth/token.go:98-159 | for a repeat at the cache before its expiry millisecond is over, exactly the sweeps that read the clock within that millisecond |
| Replay.SingleUse | internal/auth/token.go:114-159 | a jti accepted twice had such a sweep at the cache in between |
| Replay.RepeatStraddles | internal/auth/token.go:98-159 | and its second verification passed the expiry check in time but reached the cache in the expiry millisecond or after it |
| Replay.SweepInExpiryMillisecond | internal/auth/token.go:98-159 | both happen, for every jti, expiry and delay of the second verification between check and cache |
| RateLimit.SocketCannotEmptyKey | internal/conn/handler.go:226-261 | whatever one connection sends and whenever, starting on a full key bucket it is never answered RATE_LIMITED |
| RateLimit.HandleMeans | internal/conn/handler.go:226-261 | a frame is accepted exactly when its socket's bucket and then the key's hold a token at their readings, and then costs each one; RATE_LIMITED_CONN exactly when its own bucket is empty, at no cost to the key; RATE_LIMITED exactly when the key's is |
| RateLimit.SocketWindow | internal/conn/conn.go:82-99 | of one socket at most 100 + 50 d publishes and 64 + 20 d control frames are accepted in any window of length d, whatever else its key's sockets do |
| RateLimit.KeyWindow | internal/conn/handler.go:226-261 | of all sockets of a key at most 200 + 100 d frames are accepted in any window of length d |
| RateLimit.SlackKept | internal/conn/conn.go:82-99 | whatever a connection sends, the key holds 36 tokens more than the socket's two buckets together, less what the gap between a frame's two clock readings refills, at most one token |
| RateLimit.SlackAttained | internal/conn/handler.go:226-233 | for every gap one publish on full buckets leaves exactly that much |
| RateLimit.SlackKeptIff | internal/conn/conn.go:82-99 | for every gap between the two readings and every margin, all connections keep the margin if and only if it is at most 36 less min(1, 50 times the gap): 36 if and only if the readings agree |
| Eviction.EvictionUnobservable | internal/ratelimit/limiter.go:45-55 | however calls and collections interleave, each call looking its entry up at one clock reading and charging the bucket at a later one at most `gap` after, every Allow answers as without the collector when the burst refills in ttl - gap |
| Eviction.ObservableIffShort | internal/ratelimit/limiter.go:81-90 | for every gap and a whole burst of at least one: some such interleaving shows that entries are evicted if and only if the burst does not refill in ttl - gap |
| Eviction.RateWindow | internal/ratelimit/limiter.go:45-55 | under the same condition at most burst + rps * d admissions of a key in any window of length d, evictions included |
| Eviction.RateWindowIff | internal/ratelimit/limiter.go:45-90 | for a whole burst of at least one the window bound holds for all interleavings if and only if the burst refills in ttl - gap |
| Eviction.Limiter.Look | internal/ratelimit/limiter.go:46-53 | the half of Allow under the lock: the key's entry, or a new one with a full bucket, is marked seen and handed out, and the table is the machine's |
| Eviction.Limiter.Allow | internal/ratelimit/limiter.go:45-55 | the answer is the entry's bucket's at the second clock reading, and the table follows the machine |
| Eviction.Limiter.GcOnce | internal/ratelimit/limiter.go:81-90 | exactly the entries last seen before its clock reading - ttl go |
| Diagram.SlotOrder | web/diagram.js:36-48 | the listed fractions, the bisections to 1/64 and the rest, in range and each once, which is a permutation of the slots although the bisection stops early |
| Diagram.FanoutDiagram.ApplyPeers | web/diagram.js:267-293 | for distinct peers every shown one gets an occupied slot of its own and keeps the one it had while that stays occupied, and no occupied slot before a newcomer's is left free |
| Diagram.FanoutDiagram.PlaceOthers | web/diagram.js:286-292 | there is always a free occupied slot, so the break is never taken |
| Diagram.FanoutDiagram.SetPeers | web/diagram.js:250-254 | no peer moves unless fewer terminals are drawn than before; otherwise as ApplyPeers |
| Diagram.FanoutDiagram.Layout | web/diagram.js:136-234 | a new or forced size lays out slotOrder's list for its slot count, and every peer keeps a slot that is still occupied; the same size changes nothing |
| Diagram.FanoutDiagram.DrawnPeers | web/diagram.js:257-262 | every peer is drawn if they fit the slots, otherwise as many as there are slots |
| Diagram.FanoutDiagram.Drawn | web/diagram.js:257-262 | every peer and counted connection is drawn if they fit, otherwise every slot is used |
| Diagram.SlotCount | web/diagram.js:193-196 | the largest odd number of terminals from 5 to 17 whose gaps fit the stage, or 5 |

## Left out

- ClientWire.NoOrphan: exempts a channel on which, on that connection, an unsubscribe was refused or a reply was lost, because the server then answers nothing the client could act on (`ClientInputs.LostAckOrphans`, `ClientInputs.RefusedUnsubscribeOrphans`).
- ClientTasks.NoLostChannel: exempts a record whose `authorize()` threw a definitive refusal or a `ConnectionClosedError`, because the client then treats the application's error as the server's (`ClientInputs.RefusedAuthorizeLoses`).
- ClientRecovers.NeverStuck: says that helping steps can bring the channel back, not that every schedule takes them.
- ClientHeld.QuietMeansAgreed: takes the server to keep the connection as long as the client's socket is open; when the server gives it up first, as on a slow-consumer or revoke close, it lets go of every channel before the client hears of it.
- ClientTasks.LiveHandlesSurvive: is about handles that passed a handler; one without a handler does not keep its record alive in the source either.
- ClientObject.UnnamedRefusalFindsItsOp: is about refusals of subscribes; an unnamed error for a publish or an unsubscribe can share a code and is then blamed on a subscribe, as the source says itself.
- ClientObject.WirefanClient.OnEvent: takes the iteration order of #channels as a parameter, and subscribe() past its throws.
- ClientAnswers.SubscribeGrants: says that these steps lead there, one schedule among many; what holds on every schedule is in ClientTasks.CallReturns and HandsOutConfirmed.
- RateLimit.KeyWindow: takes the key's bucket as charged in the order of its clock readings.
- RateLimit.SocketWindow: the same for the socket's own two.
- Registry.SweepMapped: takes the order in which sync.Map's own Range visits the entries of a quiescent map, each once, as a parameter.
- Registry.ShardedReg.GetOrCreate: is one call at a time; its two halves interleave with everything else in ChannelRuns.
- Fanout.SameOrderForAll: is about the sharded pool only; the inline fanout promises no such order across publishers.
- Eviction.EvictionUnobservable: takes a bucket's own Allow, which `golang.org/x/time/rate` does under a lock of its own, as one step at its clock reading, and buckets as charged in the order of their readings.
- Eviction.ObservableIffShort: the same.
- Eviction.RateWindowIff: the same.
- Eviction.RateWindow: the same; a window runs over events in that order.
- Eviction.Limiter.Allow: is one call with nothing between its halves; the interleavings are the histories.
- Replay.SingleUse: takes one expiry per jti, which only a repeat of 128 random bits could break.
- Schema.AcceptedMeans: takes a table's columns in the order `sort.Slice` leaves them, and table names as unique.
- Event listeners and handlers that call back into the client, duplicate `connected` frames on one socket, and a `send` that throws on an open socket.
- The `error`, `disconnected` and `resubscribed` events of the client and delivery of `event` frames to handlers; backoff delays are arbitrary.
- A ChannelRecord as a shared object: records are values keyed by identity, which captures whether two variables refer to the same record but not object aliasing as such.
- `Registry.Delete`, which nothing calls, and stopping Range early, which no callback does that is modelled.
- JSON decoding and encoding, UTF-8 checks, ULIDs, metrics.
- WebSocket I/O: close handshakes, pings, read limits, TCP teardown; a CloseFrame is the fact that the close was sent.
- The per-address connection cap and address parsing in `upgrade.go`; both appear only as an upgrade being turned away.
- SQLite itself, WAL files and the read-only handle of the preflight, whose check is the same function as the opener's; the MAC and its hash; FNV, which is any function of the name.
- Floating point in the token buckets and in the diagram's fractions: both are exact reals.
- Drawing and animation in `web/diagram.js`, the rest of `web/`, `cmd/loadtest`, deploy scripts.
