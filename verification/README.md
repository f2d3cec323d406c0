# Restreamer in Dafny

Restreamer pulls MPEG transport streams from upstream servers and multiplies them to any number of HTTP
clients. This project models its stream broker, the framing of the upstream bytes, and the stateful parts
around them, and proves what they promise.

The parts fit together as follows.

- **Framing.** `Framing` defines the packets of a byte sequence by a scanner that drops bytes up to the next
  0x47 and then takes 188 (ISO/IEC 13818-1, sections 2.4.3.2 and 2.4.3.3), and by an independent
  specification: the only disjoint windows that start with the sync byte and leave no sync byte outside that
  still had a whole packet after it. `PacketReader` is the block-wise, resynchronising reader on buffers. It is proved
  equal to the scanner for every way in which the network splits the bytes (`Input`: any piece sizes, empty
  pieces, errors with and without data, datagram sockets behind a `FixedReader`).
- **Broker.** `Broker` is a state machine. Any number of streamers share one access controller and one load
  reporter; each has command eaters, `Stream` calls and HTTP handlers. A rendezvous, a send, a receive, a
  compare-and-swap or a locked section is one atomic step, and a run takes steps in any order. The machine
  follows the code where it misbehaves as well: closing or sending on a closed queue sets `panicked`.
  `Ownership`, `Queues`, `Admission`, `Reporting`, `Delivery` and `Conservation` each hold one inductive
  invariant. `Theorems` states what they mean for every run, up to the end-to-end theorem that joins the
  broker to the framing and the network; `Upstream` states that the pull loop and the broker's steps agree.
  `Commands` answers an add request from the commands given in the run, `Handlers` and `Sessions` follow an HTTP handler
  and a `Stream` call through their lives (on `Progress`: nobody is stuck), and `Violations` holds the
  runs in which a condition of a theorem fails. `Pool` has the same pool operations on mutable connections, and the broker's
  run of a whole fan-out.
- **Sequential parts.** `AccessControl`, `EventQueue`, `Metrics` (on `Tallies` and `Words`), `Shuffle`, `Credentials` (on
  `Base64`) and `Reconnect` are methods on mutable state, proved against functions, and lemmas about those functions.
  `AccessLaw`, `EventLog` and `Logins` state what those functions mean without them: the controller's answers from
  the answers before, what the reporter tells from a log of the messages it accepted, and who is let in from
  the configuration and the text of the header.

## What the code does and does not promise

These statements are exact: both directions are proved, over all inputs or all runs.

- **Queues.** A run keeps every pooled queue open and never sends on or closes a closed queue, exactly
  if (a) the command to go offline meets an empty pool, and (b) a remove request whose client has not seen
  its queue closed is carried out by the session that admitted the client
  (`Theorems.QueueSafetyTheorem`). The code ensures neither, as `Violations` shows with two short runs that end
  in a panic: `Inhibit` closes the queues of a pool but leaves the connections in it, and a handler that
  loses its client just before a session ends can have its remove request carried out by the next session.
  Statements about "disciplined" runs are about runs that satisfy (a) and (b); all others are about all
  runs. That no handler waits for a queue nobody will close holds in all runs (`Theorems.NoStrandedHandler`).
- **Pools.** The pools hold only clients that the connection counter counts exactly if no client was
  released while a session is carrying out its remove request (`Theorems.PoolTheorem`, and for the steps of a run
  `Theorems.PoolsAlwaysCounted`). That can happen after
  going offline with clients in the pool, and for a moment the pool is larger than the counter
  (`Violations.ReleasedInPool`). Without the clients under removal the bound always holds.
- **Reported count.** The reporter's count is the number of clients it was told of throughout a run exactly
  if that number stays within MaxInt32 (`Theorems.ReportingTheorem`).
- **Datagrams.** `FixedReader` treats an empty datagram as the end of the stream, although its purpose is to
  go on with the next one. It delivers all that was received exactly if no data follows an empty
  datagram (`Input.EmptyDatagramEndsStream`; `Input.EmptyDatagramLosesData` is a case where it does not).
- **Counter.** The reporter's count leaves its range exactly for the change -2^63, whose negation does not
  fit (`EventQueue.CountStaysInRange`), and equals the greatest rise of the prefix sums exactly while no
  stretch of changes adds up to more than MaxInt32 (`EventQueue.ClosedForm`).
- **Credentials.** The set of accepted tokens matches the user map exactly if no change withdraws a token that
  another user shares (`Credentials.IndexAgreesWithUsers`). Basic authentication meets this when user names have
  no colon; with a colon it can fail (`Credentials.ColonLocksOut`).
- **Shuffle.** Different random choices give different results exactly if the elements are distinct
  (`Shuffle.ShuffleIsExact`).

## Model

| member | source | states |
|---|---|---|
| Framing.BlocksRefineScan | protocol/packet.go:39-94 | Reading blocks of 188 bytes and realigning yields the packets that a byte-wise scanner finds, on every byte sequence and at its end. |
| Framing.ReadBlockOf | protocol/packet.go:53-90 | One call of the block reader, from its first block: where the sync byte is decides between a packet, nothing, and running out of data. |
| Framing.ScanSkipsGarbage | protocol/packet.go:57-69 | Bytes before the first sync byte make no difference. |
| Framing.FramingTheorem | protocol/packet.go:34-94 | The scanned packets are disjoint windows in order, each 188 bytes from a sync byte, none missed; and they are the only such windows. |
| Framing.FramingIsUnique | protocol/packet.go:34-94 | Any windows that are disjoint, in order and miss no sync byte with a whole packet after it are the scanner's. |
| Framing.PositionsAreFraming | protocol/packet.go:34-94 | The scanner's own windows have those properties. |
| Framing.ScanCutsAtPositions | protocol/packet.go:76-93 | The packets are contiguous pieces of the input at the scanner's positions, with no byte changed. |
| Framing.ScanIsMonotone | protocol/packet.go:39-94 | More input never changes or removes a packet found already. |
| Framing.ScanOfShortStream | protocol/packet.go:43-51 | Fewer than 188 bytes hold no packet. |
| Framing.OnePacket | protocol/packet.go:25-28 | Of 188 bytes without 0x47 behind the first, the scan makes one packet if the first is 0x47 and none otherwise; of one byte less, none. |
| Framing.RoundsKeepProspect | protocol/packet.go:39-94 | Over any number of calls, the packets found and those still to be found are always the same in total. |
| Framing.PacketsAreFound | streaming/client.go:524-608 | Any prefix of the packets is what some number of rounds finds. |
| Framing.EndIsFound | streaming/client.go:566-567 | Some number of rounds reaches the end of the stream, with all packets found. |
| Input.DatagramsAreFlat | protocol/reader.go:56-75 | Datagrams that are neither empty nor too long are seen as their plain concatenation. |
| Input.EmptyDatagramEndsStream | protocol/reader.go:56-75 | The stream is a prefix of all that was received, and all of it exactly if no data follows an empty datagram before the first error. |
| Input.EmptyDatagramLosesData | protocol/reader.go:67-70 | An empty datagram followed by one with data: the data is received and not delivered. |
| Input.DeliveredIsPrefix | protocol/reader.go:56-75 | From a byte stream or from datagrams, what the reader delivers is a prefix of what the network hands out. |
| Input.FixedReader.Refill | protocol/reader.go:58-66 | Buffers exactly the bytes that were received, also when they come with an error. |
| Input.FixedReader.Read | protocol/reader.go:56-75 | Delivered plus buffered bytes are always what the socket handed out, also when data arrives with an error; only the caller's range is written. |
| Input.Source.Read | protocol/packet.go:44-49 | A read consumes a prefix of the bytes still to come, of any size, or reports the end. |
| PacketReader.Fill | protocol/packet.go:43-51 | The fill loop reads exactly the next bytes of the stream whatever the piece sizes, or fails exactly when too few are left. |
| PacketReader.FindSync | protocol/packet.go:58-65 | Finds the first sync byte of the block. |
| PacketReader.Realign | protocol/packet.go:72-89 | The new packet is the rest of the block from the sync byte on, followed by the next bytes of the stream; fails exactly when these are missing. |
| PacketReader.ReadMpegTsPacket | protocol/packet.go:39-94 | Returns what the block specification says for the bytes still to come, and leaves the rest of them, for every split into reads. |
| PacketReader.Pull | streaming/client.go:516-627 | After any number of rounds what was pushed into the input queue is what so many calls of the block reader find, a prefix of the scan of the upstream bytes, and what is left yields the rest; the loop ends, and then all was pushed. The queue exists exactly if there was a packet, and each is counted. |
| PacketReader.PullFeed | streaming/client.go:516-627 | The same for a byte stream and for datagrams behind a fixed reader, whatever the sizes of the pieces. |
| Upstream.InputIsPulled | streaming/client.go:516-627 | In every reachable state the input queue of every call is where the pull loop on its stream is after some number of rounds, closed exactly if the loop has ended. |
| Upstream.RoundIsAStep | streaming/client.go:524-617 | Each round of the pull loop is a push or the closing of the queue as the broker allows it, or is not seen by it. |
| Upstream.PulledByMoves | streaming/client.go:516-627 | Wherever the pull loop can be after some rounds, pushes and a closing of the queue lead there too. |
| AccessControl.AccessController.Accept | streaming/acl.go:58-89 | Accepts exactly if there is no inhibit and room below the limit (0: no limit), counts what it accepts, and stays within the limit. |
| AccessControl.AccessController.Release | streaming/acl.go:92-116 | Counts down by one, and answers no exactly if there is nothing to release. |
| AccessControl.AccessController.SetInhibit | streaming/acl.go:49-54 | Changes the flag and not the counter. |
| AccessLaw.AnswersAreExact | streaming/acl.go:49-116 | After any calls a connection is accepted exactly if the last inhibit was taken back and there is no limit or fewer connections than the limit were accepted and not released; a release finds one exactly if there is one. |
| AccessLaw.LimitIsReached | streaming/acl.go:58-66 | Of calls that only ask for admission exactly the first n are accepted with a limit of n, and all without a limit. |
| Pool.FanOut | streaming/streamer.go:296-320 | Every connection in the pool is offered the packet once, without waiting: queues with room get it at their end, full queues are unchanged; the outcomes are counted exactly. |
| Pool.OffersFanOut | streaming/streamer.go:296-320 | The broker's offers of one packet to the whole pool, without a pause and in any order, are a run, and do to queues and counters what the fan-out loop does. |
| Pool.Session.Distribute | streaming/streamer.go:288-320 | The counters of sent and dropped packets grow by the queues with and without room, together by the size of the pool. |
| Pool.Session.Add | streaming/streamer.go:338-356 | A connection joins the pool exactly if the session accepts connections and the broker does; the broker is asked only in the first case. |
| Pool.Session.Remove | streaming/streamer.go:329-337 | The connection leaves the pool, and its queue is closed unless the client saw it closed. |
| Pool.Session.Inhibit | streaming/streamer.go:357-368 | All pooled queues are closed while the connections stay in the pool, so only an empty pool still has all queues open. |
| Pool.Session.CloseAll | streaming/streamer.go:393-395 | The clean-up closes every pooled queue, each once. |
| Ownership.OneReceiver | streaming/streamer.go:196-196 | From the invariant: eaters plus owning sessions of a streamer are one process, and the running flag is held by one call or none. |
| Ownership.SameOwner | streaming/streamer.go:267-279 | Two sessions that receive requests of the same streamer are the same. |
| Ownership.EaterExcludesOwner | streaming/streamer.go:228-249 | While an eater receives, no session of that streamer does. |
| Ownership.StartIsNotMisdirected | streaming/streamer.go:277-279 | The start command can only reach an eater, never a session that would call it invalid. |
| Ownership.StepKeepsInv | streaming/streamer.go:265-405 | Every step of every process keeps flag and channel exclusively owned. |
| Ownership.InitHasInv | streaming/streamer.go:185-198 | A new streamer starts with its eater as the owner. |
| Theorems.OneReceiverTheorem | streaming/streamer.go:228-398 | In every reachable state each streamer's requests have exactly one receiver, the flag is set exactly while one call holds it, and the start command cannot reach a session. |
| Queues.StepKeepsInv | streaming/streamer.go:322-387 | Every step keeps pools, pending requests and handlers in agreement, with any number of each. |
| Queues.StepKeepsTended | streaming/streamer.go:288-395 | Every step, disciplined or not, keeps each open queue of an admitted client in the care of the session that admitted it. |
| Queues.StepKeepsSafeInv | streaming/streamer.go:288-395 | A disciplined step keeps the pooled queues open; an undisciplined one leaves an unsafe state at once. |
| Queues.EatenRemoveIsClosed | streaming/streamer.go:240-246 | When an eater swallows a remove request, that client's queue is closed already; in all runs. |
| Queues.OpenInCare | streaming/streamer.go:393-395 | An open queue of an admitted client is one that the session that admitted it has still to close; in all runs. |
| Queues.DrainingEnds | streaming/streamer.go:459-467 | A handler that drains has a next packet, or a closed queue, or a session that is carrying out its removal; in all runs. |
| Queues.AdmittedIsPooled | streaming/streamer.go:329-337 | In a disciplined run a client that has not seen the close is in the pool of the session carrying out its remove request exactly if that session admitted it. |
| Queues.RemoveKeepsSafe | streaming/streamer.go:329-337 | Carrying out a remove request closes a closed queue exactly if the client has not seen the close and another session admitted it. |
| Queues.InhibitKeepsSafe | streaming/streamer.go:357-368 | Going offline is safe exactly if the pool is empty. |
| Theorems.QueueSafetyTheorem | streaming/streamer.go:288-395 | A run is free of sends on and closes of closed queues, with every pooled queue open, if and only if it is disciplined. |
| Theorems.ClosedForGood | streaming/streamer.go:333-395 | No step opens a closed queue again. |
| Theorems.OpenWhileCaredFor | streaming/streamer.go:393-398 | In every run an open queue of an admitted client is in the care of its session, and swallowed remove requests find it closed; in a disciplined run queues in a session's care are open. |
| Theorems.NoStrandedHandler | streaming/streamer.go:459-467 | In every run, a handler that drains an open queue has its remove request being carried out, and one that drains a closed queue can go on. |
| Violations.LateRemovePanics | streaming/streamer.go:334-336 | A run in which a remove request reaches the next session and closes a closed queue. |
| Violations.InhibitPanics | streaming/streamer.go:357-368 | A run in which a session goes offline with a client in its pool and later closes a closed queue. |
| Violations.ReleasedInPool | streaming/streamer.go:329-337 | A run in which a client is released while its remove request is being carried out, so that the pool holds more clients than the counter says. |
| Admission.StepKeepsCounts | streaming/streamer.go:338-356 | Every step keeps the shared counter equal to the handlers let in and not yet released, and within the limit. |
| Admission.ReleaseKeepsCounts | streaming/streamer.go:482-483 | A handler's release finds the counter above zero. |
| Admission.PoolsAreDisjoint | streaming/streamer.go:338-356 | Pools of different sessions, or parts of them, share no client. |
| Admission.StayingAreActive | streaming/streamer.go:338-356 | All pooled clients but the one being removed are counted. |
| Admission.PooledAreActive | streaming/streamer.go:329-337 | All pooled clients are counted exactly if none was released while its remove request is carried out. |
| Theorems.AdmissionTheorem | streaming/acl.go:58-116 | In every reachable state the counter is the number of active handlers over all streamers, within a non-zero limit, and no release finds it at zero. |
| Theorems.PoolTheorem | cmd/restreamer/restreamer.go:87-87 | Over all streamers sharing the controller, the pools without clients just being removed hold together no more than the counter and the limit in every reachable state; the full pools hold only counted clients exactly if none was released under removal, and then meet the bounds; in disciplined runs none is. |
| Admission.ReleaseKeepsPoolsCounted | streaming/streamer.go:482-483 | A release leaves a released client in a pool exactly if the client's session is carrying out its remove request with the client in its pool. |
| Commands.AdmissionIsExact | streaming/streamer.go:338-356 | In every run an add request is granted, and the client put into the pool, exactly if the last command that the session carried out was not to go offline, the last command to the controller was not an inhibit, and there is no limit or fewer handlers than the limit are active; otherwise it is refused. |
| Commands.OfflineRefuses | streaming/streamer.go:338-374 | From going offline until it is told to go online again a session refuses every add request that it carries out, and its pool gains no client. |
| Theorems.PoolsAlwaysCounted | streaming/streamer.go:329-337 | Throughout a run all pooled clients are counted exactly if no client is released during its removal. |
| Reporting.ReportIsExact | event/queue.go:203-225 | With an accurate count the reporter applies the next change without clamping exactly if the clients it then counts are at most MaxInt32. |
| Reporting.StepKeepsPending | streaming/streamer.go:446-476 | Every step keeps the queued changes leading from the clients counted to those announced; an accurate count stays accurate exactly if the clients counted are in range. |
| Reporting.CountAgreesWithHandlers | event/queue.go:302-309 | Clients counted plus queued changes are the announced handlers, and no prefix of the queue leads below zero. |
| Theorems.AccurateExactlyInRange | event/queue.go:203-225 | The count is accurate throughout a run exactly if the clients counted stay within MaxInt32. |
| Theorems.LimitKeepsCountable | streaming/acl.go:58-66 | A connection limit of at most MaxInt32 keeps the announced clients in range. |
| Theorems.ReportingTheorem | event/queue.go:195-265 | In every run clients counted plus queued changes are the handlers between their two notifications; the reported count is right throughout exactly if the clients counted stay within MaxInt32, and it is if the announced clients or the limit do. |
| EventQueue.BalanceTellsLoad | event/queue.go:195-265 | A reporter that starts without connections counts the changes it is told, and the balance of hits and misses it tells is 1 exactly while the count is at the limit. |
| Theorems.LoadIsTold | event/queue.go:133-264 | When the real queue has handled, among beats, stops and restarts, the changes that the broker's reporter applied, and these were accurate, hits and misses alternate and their balance is 1 exactly if as many clients as the limit are counted. |
| Delivery.StepKeepsDelivering | streaming/streamer.go:288-327 | Every step keeps what a session distributed, what each queue decided, and what each client received consistent. |
| Delivery.OfferedTracks | streaming/streamer.go:296-319 | An offer appends the latest packet to what the client keeps exactly if its queue has room. |
| Delivery.ServedIsSound | streaming/connection.go:91-143 | Greeting, writing, seeing the close, quitting and draining keep the output equal to the preamble and the packets written. |
| Delivery.ServedKeepsReceived | streaming/connection.go:106-124 | Serving and draining neither lose nor repeat nor reorder packets. |
| Delivery.PulledIsFed | streaming/client.go:570-617 | What was pushed is always a prefix of the scan of the upstream bytes, and all of it once the queue is closed. |
| Theorems.NoInputLoss | streaming/streamer.go:288-392 | The packets distributed and waiting are exactly those pulled; when the loop ends all are distributed, and the drain discards none. |
| Theorems.ClientDelivery | streaming/streamer.go:296-319 | Written, drained and queued packets are, in order, the ones kept of those distributed since the client joined; the queue stays within capacity; a packet is missing only if the queue was full. |
| Theorems.DecidedAt | streaming/streamer.go:297-317 | A packet is dropped exactly if as many earlier kept packets as the queue can hold had not been taken yet. |
| Theorems.NothingDropped | streaming/streamer.go:297-317 | A client gets every packet offered exactly if it always leaves room in its queue. |
| Theorems.KeptWindows | streaming/streamer.go:296-319 | Dropping packets keeps the remaining ones disjoint windows in upstream order. |
| Theorems.EndToEnd | streaming/connection.go:91-143 | What a client is sent is the preamble and then whole 188-byte packets that start with the sync byte, disjoint pieces of the upstream bytes in upstream order, for every interleaving and drop pattern. |
| Theorems.EndToEndFromNetwork | streaming/client.go:516-627 | The same for the pieces that the network hands out, from a byte stream or from datagrams, whatever their sizes. |
| Conservation.StepKeepsBalanced | streaming/streamer.go:296-319 | Every step keeps the counters of sent and dropped packets equal to what clients and pools account for. |
| Conservation.StatisticsAddUp | streaming/streamer.go:465-467 | From the balance: packets counted as sent are those that clients wrote, drained or still have queued. |
| Theorems.FanOutConservation | streaming/streamer.go:296-319 | Sent is the sum over all clients ever admitted of written, drained and queued; sent plus dropped is the sum of pool sizes over the packets distributed, less the offers still to be made. |
| Progress.EveryAddIsAnswered | streaming/streamer.go:420-428 | A handler that waits for its answer has a session that is carrying out its request. |
| Progress.NextOwnStep | streaming/streamer.go:288-398 | A session that owns the channel and is not waiting for a packet or request can take a step that needs no other process. |
| Progress.OwnStepsAreBounded | streaming/streamer.go:288-398 | It takes a bounded number of these before it receives requests again or is finished. |
| Progress.RequestsGetThrough | streaming/streamer.go:409-461 | A request is never stuck: an eater swallows it, or a session receives it, which can take it at once if it is waiting and otherwise can take a step of its own. |
| Progress.NoHandlerIsStuck | streaming/streamer.go:409-490 | In every reachable state without a panic, every handler at every stage can go on, or a process can take the step it is waiting for. |
| Handlers.StepLeads | streaming/streamer.go:409-490 | What each step does to the stage of each handler, as a table; all other steps leave it where it is. |
| Handlers.RequestsAreReceivedOnce | streaming/streamer.go:228-249 | In every run each handler's add request is received at most once, by an eater or a session, and so is its remove request. |
| Handlers.EatenIsRefused | streaming/streamer.go:228-249 | A client whose add request is eaten is refused, and stays refused in the rest of every run. |
| Handlers.LeavesExactlyWhen | streaming/connection.go:91-143 | A handler enters its leaving stage exactly by a failed write or preamble, a queue that it sees closed, or a client that is gone. |
| Handlers.EveryHandlerGetsFurther | streaming/streamer.go:409-490 | In every reachable state without a panic some step brings any handler that is not done further: to a later stage, a shorter or closed queue while draining, room for its notification, or a session closer to receiving its request. |
| Sessions.PhasesAscend | streaming/streamer.go:265-405 | No step of any process takes a `Stream` call back to an earlier phase. |
| Sessions.TurnedAwayExactlyWhenBusy | streaming/streamer.go:265-270 | A `Stream` call is turned away exactly if another call of the same streamer is between setting and clearing the running flag. |
| Sessions.EveryCallGetsFurther | streaming/streamer.go:265-405 | In every reachable state without a panic some step brings any `Stream` call that has not returned further, or brings closer the session that it waits for. |
| Sessions.PanicsExactly | streaming/streamer.go:288-395 | The program ends in exactly the steps that send to or close a queue that is closed. |
| Sessions.CloseIsSeenLast | streaming/connection.go:106-133 | A client that sees its queue closed has been written every packet that was kept for it, in order. |
| EventQueue.CountStaysInRange | event/queue.go:203-225 | The count stays within [0, MaxInt32] exactly if the change is not -2^63. |
| EventQueue.CountIsExact | event/queue.go:205-225 | The count is the true sum exactly if that is within range, and the nearer bound otherwise. |
| EventQueue.PeakRiseIsMaximum | event/queue.go:203-225 | The recursive form of the peak rise is the maximum over all k of the sum of changes after the first k. |
| EventQueue.ClosedForm | event/queue.go:203-264 | The clamped count is the peak rise after every prefix, exactly if no stretch of changes adds up to more than MaxInt32; it is always in range. |
| EventQueue.LimitEventsOfChange | event/queue.go:226-262 | A message makes a handler hear a hit or a miss exactly when the count crosses the limit, with both counts. |
| EventQueue.HitsAndMissesAlternate | event/queue.go:133-264 | Over any operations, with stops and restarts, a handler's hits and misses alternate, and their balance tells on which side of the limit the count is. |
| EventQueue.AlternatingBalance | event/queue.go:226-262 | In an alternating sequence the balance of hits and misses is determined by its two ends. |
| EventQueue.Queue.HandleConnect | event/queue.go:195-265 | The in-place counter and the calls to handlers are the specified transition. |
| EventQueue.Queue.HandleNext | event/queue.go:143-178 | One round of the loop takes the oldest message and handles it by its kind. |
| EventQueue.Queue.Dispatch | event/queue.go:239-243 | Each registered handler is called exactly once, in any order. |
| EventQueue.Queue.Start | event/queue.go:89-115 | Starts with an empty queue, and changes nothing if it is running. |
| EventQueue.Queue.Shutdown | event/queue.go:120-162 | Drains what was not handled and keeps count and handlers. |
| EventQueue.Queue.RegisterEventHandler | event/queue.go:267-280 | Registers only while stopped. |
| EventQueue.Queue.UnregisterEventHandler | event/queue.go:282-300 | Unregisters only while stopped, and only what is registered. |
| EventLog.RunAgrees | event/queue.go:89-318 | After any operations, with stops and restarts, the messages handled followed by those pending are those accepted since the last start, in that order; the count is that of the changes handled; each handler is registered for what it asked for last and was told of exactly the messages handled while it was, one pulse for each beat. |
| EventLog.NewQueueAgrees | event/queue.go:75-84 | The same from a new queue on. |
| EventLog.LoggedAsHandled | event/queue.go:133-264 | Beats, stops and restarts make no difference to the hits and misses that a handler of both is told of: they are those of the changes in the order handled. |
| Tallies.MinusUndoesPlus | metrics/stats.go:136-143 | A difference of counters is the one value that leads from the old to the new one, also across a wrap-around. |
| Tallies.SumWithout | metrics/stats.go:243-281 | The sum over the streams does not depend on the order in which the map is traversed. |
| Tallies.VolumesAddUp | metrics/stats.go:251-270 | 188 times a sum of packets is the sum of the byte counts, modulo 2^64. |
| Upstream.BytesAreCounted | metrics/stats.go:251-253 | The byte counters are the number of bytes of the packets counted, modulo 2^64. |
| Metrics.TotalsTelescope | metrics/stats.go:321-330 | Adding the growth between two snapshots to the totals gives the totals up to the second. |
| Metrics.RecordedCounts | metrics/stats.go:85-91 | The packet counters are the numbers of packets received, sent and dropped, modulo 2^64. |
| Metrics.RecordedConnections | metrics/stats.go:73-79 | The connection counter, read as a signed integer, is connections added less connections removed, as a wrapping 64-bit integer. |
| Metrics.RecordedDuration | metrics/stats.go:105-107 | The time counter, read as a signed integer, is the sum of the streaming times reported, as a wrapping 64-bit integer. |
| Metrics.ReportedUpToLastTick | metrics/stats.go:317-331 | What the totals show is what was recorded up to the last tick. |
| Metrics.LinkedIsLast | metrics/stats.go:93-99 | An upstream is connected exactly if the last event about it is a connect, or there is none that it went away and it was connected before. |
| Metrics.ShownUpToLastTick | metrics/stats.go:317-331 | What the totals show of it is how it was at the last tick. |
| Metrics.Collector.Record | metrics/stats.go:73-107 | Each event changes its own counter, or the upstream state, and nothing else. |
| Metrics.Collector.Clone | metrics/stats.go:111-120 | A new object with the same values. |
| Metrics.Collector.InvSub | metrics/stats.go:136-143 | Replaces the values in place by what leads from them to the others. |
| Metrics.StreamStatistics.Include | metrics/stats.go:264-280 | Adding a stream to the global totals keeps global bytes at 188 times global packets. |
| Metrics.Delta | metrics/stats.go:290-300 | The clones returned are new objects, apart from all others and each other, with the current values; the previous ones hold the growth since. |
| Metrics.Update | metrics/stats.go:221-285 | Each stream's totals grow by its change; global totals are the sums over the streams, global bytes are 188 times global packets, and the global state is connected exactly if some stream is. |
| Metrics.Loop | metrics/stats.go:303-336 | After any sequence of events and ticks each stream's totals have grown by exactly what its events amount to up to the last tick, and after a tick the global totals are the sums. |
| Metrics.Statistics.RegisterStream | metrics/stats.go:355-362 | A new collector and new totals for the name; all other streams keep theirs. |
| Metrics.Statistics.RemoveStream | metrics/stats.go:365-370 | Removes the name and nothing else. |
| Shuffle.RoundsRearrange | util/shuffle.go:28-32 | The rounds rearrange the list and leave what earlier rounds placed. |
| Shuffle.ShuffleReachesAll | util/shuffle.go:24-34 | Every arrangement of the list is the result of some choices. |
| Shuffle.ShuffleIsExact | util/shuffle.go:24-34 | Different choices give different results exactly if the elements are distinct; with the two rows above, a bijection. |
| Shuffle.ShuffleCopy | util/shuffle.go:37-47 | The result is a new list with the same elements, the one that the choices determine; the argument is unchanged. |
| Base64.EncodeIsInjective | auth/authentication.go:153-153 | Different bytes have different encodings (RFC 4648, section 4), whatever their lengths. |
| Base64.DecodeEncode | auth/authentication.go:153-153 | A strict decoder, written from any alphabet of RFC 4648, section 4, gives back what was encoded. |
| Base64.DecodesExactly | auth/authentication.go:153-153 | A text decodes to some data exactly if it is its encoding. |
| Credentials.LoginIsAccepted | auth/authentication.go:133-171 | A user's login is accepted exactly if the user is a current one whose token is let in. |
| Credentials.AuthenticatesExactlyCurrentUsers | auth/authentication.go:133-144 | With an index in order, exactly current users' logins are accepted, and a header exactly if it carries the token of one. |
| Credentials.ChangeKeepsSound | auth/authentication.go:146-164 | No change lets in a token that no current user has. |
| Credentials.ChangeKeepsComplete | auth/authentication.go:146-164 | A change leaves every current user's token let in exactly if it withdraws no token that another user shares. |
| Credentials.IndexAgreesWithUsers | auth/authentication.go:200-237 | Over any sequence of changes, for both schemes: tokens always belong to current users, and all of these are let in throughout exactly if no shared token is withdrawn. |
| Credentials.UserIsDetermined | auth/authentication.go:151-153 | Name, colon and password determine a name without a colon (RFC 7617, section 2). |
| Credentials.BasicAuthentication | auth/authentication.go:133-171 | For names without colons, after any changes a user's login is accepted exactly if the user is a current one. |
| Credentials.ColonLocksOut | auth/authentication.go:146-164 | With a colon in a name, removing one user locks out another. |
| Credentials.Authenticator.constructor | auth/authentication.go:118-131 | Adds the listed users that have credentials, in order. |
| Logins.AcceptedTokens | auth/authentication.go:133-164 | After any changes the accepted tokens are those of the last added password of each user not removed since; all of them are, if no shared token is withdrawn. |
| Logins.BearerConfigured | auth/authentication.go:118-131 | A bearer authenticator just configured accepts a header exactly if it starts with "Bearer" and what follows its first space is the password of a listed user with credentials. |
| Logins.BasicConfigured | auth/authentication.go:118-131 | A basic one, exactly if it starts with "Basic" and what follows its first space decodes to name, colon and password of such a user. |
| Logins.BearerIsAccepted | auth/authentication.go:200-237 | After any changes a header is accepted only with a password in force, and always with one if no shared token is withdrawn. |
| Logins.BasicIsAccepted | auth/authentication.go:133-164 | After any changes a header is accepted only with name and password of a user in force, and always with these if no name has a colon. |
| Credentials.Authenticator.Authenticate | auth/authentication.go:133-144 | Accepts exactly a header that starts with the scheme's name and carries a known token after its first space. |
| Credentials.Authenticator.AddUser | auth/authentication.go:146-156 | The maps change as specified: an old token is withdrawn before the new one is added. |
| Credentials.Authenticator.RemoveUser | auth/authentication.go:158-164 | The maps change as specified; an unknown user changes nothing. |
| Credentials.Authenticator.GetLogin | auth/authentication.go:166-171 | The header value of a current user, empty for others. |
| Reconnect.Loop | streaming/client.go:279-336 | Goes round the servers in order, from the first; each attempt after the first starts when the connection has ended and the deadline set before has passed; a waiting time of 0 means one attempt. |
| Reconnect.StartsAsSoonAsItMay | streaming/client.go:289-306 | No attempt starts before the connection of the one before has ended, nor before the waiting time since that one's start has passed; apart from lateness it starts at the least time that meets both. |
| Reconnect.AttemptsAreSpaced | streaming/client.go:283-306 | Attempts that are d apart in order are at least d waiting times apart. |
| Reconnect.SameServerIsSpared | streaming/client.go:279-310 | The same server is tried again only after every other one was tried in between, and at least as many waiting times later as there are servers. |
| Reconnect.EveryServerIsTried | streaming/client.go:308-310 | Any n attempts in a row try every one of the n servers. |

## Left out

- Input queue capacity: sending to the input queue never waits in the model; the bound only delays `pull`.
- Client queues of capacity 0: such a queue never takes a packet in the model, whereas an unbuffered channel hands it to a receiver that happens to wait.
- `Broker` steps within a statement: a locked section, a compare-and-swap and the handling of one request between its receipt and its answer are single steps, except that a fan-out and the final closing of queues take one step for each connection. Going offline closes the queues of the pool in one step.
- Two clean-ups at once: a `Stream` call that is turned away leaves its input queue without a receiver, and nothing is claimed about when reconnecting succeeds.
- Heartbeats do not take up room in the reporter's queue in `Broker`; `EventQueue` has them. Stopping the reporter while clients are connected is in `EventQueue` only.
- `Serve` on a mutable connection: the loop that writes packets is modelled as steps of a client in `Broker`, since what it does depends on other processes. Response headers and flushing are left out, and a failed write counts its packet as written.
- Fairness: `Handlers` and `Sessions` state that some step brings every process further, not that a scheduler takes it.
- EventQueue.Queue.Notify: needs a running queue with room; the code waits for room and panics or blocks forever when stopped.
- Metrics.Delta: needs a previous clone for every stream and distinct objects; the code relies on both and does not support registering a stream while its loop runs.
- Metrics.Loop: events are counted between ticks; a clone that races with events of the same stream reads its counters one by one in the code. The collector's counters are one field of the model.
- Packets-per-second rates (floating point), time stamps of ticks, and the copies returned to API callers (metrics/stats.go:255-260, metrics/stats.go:374-401).
- Integer width: the event queue assumes 64-bit integers; the access controller's counter is unbounded, as it would take 2^64 connections to wrap it.
- `FixedReader.Close`, read timeouts, opening of sockets, files and processes (streaming/client.go:339-483, protocol/reader.go:77-86).
- Reconnect.Loop: assumes that every URL could be parsed; the code leaves empty entries at the end of its list otherwise. Opening a connection is a duration.
- The random source of the shuffle is a parameter, one answer for each round, so uniformity is stated as a bijection.
- Map values in the credential index are only ever true, so the map of tokens is a set. The pass-through and deny authenticators and bound users are one-branch facts.
- Prometheus counters, logging, the proxy, the API handlers and the configuration have no effect on the modelled state.
