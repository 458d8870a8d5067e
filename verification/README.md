# httpadapter in Dafny

httpadapter carries many virtual connections ("channels") over one TCP connection. Each end of a
channel has a ring buffer of a size it announces, the window; the peer may send that much and goes on
when bytes are confirmed. This project models that protocol and the code around it, and proves what
holds in every run. `dafny verify dfyconfig.toml` checks all of it.

## Layers

* **Flow control** (`FlowState`, `FlowLedger`, `FlowOrder`, `FlowOpening`, `FlowProgress`, `Flow`,
  `FlowRuns`, `FlowClosing`, `FlowTold`,
  `FlowShared`, `FlowSharedRest`). One channel is a pair of ends, each with five goroutines as program counters (`Serve`,
  `serveConfirm`, the transport loop, the queue's writer, the application) and a queue and a wire in each
  direction. A step is the work of one goroutine between two points where another can run, and a run is
  any possible sequence of steps. `Flow` holds the results: the ledger of credit, order, absence of
  overruns, and what a state of rest looks like. `FlowRuns` constructs runs that go wrong, `FlowClosing` says
  what still follows a Close, `FlowTold` which Close frames there are, and `FlowShared` carries the results over to any number of channels that share
  queue, wire and transport loop; `FlowSharedRest` shows that such a connection comes to rest.
* **The loops of a channel** (`Channel`, `ChannelFlow`). `Serve` with `choose`, `Confirm` and
  `serveConfirm` as programs, frame bytes and the shared 32 KiB arena included; and lemmas that the
  flow-control protocol hands over exactly what these loops compute, under every schedule and at either end.
* **Buffers** (`ReadWriter`, `PipeReader`, `PipeMonitor`). The ring as an array refines a bounded queue;
  the pipe one critical section at a time; and the interleaving of any number of readers, writers and
  closers at the points where the lock or the `closed` flag is touched.
* **Transports** (`Frames`, `BaseTransport`, `ServerTable`, `ServerRuns`, `ServerTransport`, `ClientPool`,
  `ClientTransport`, `ClientLoop`, `LoopFlow`). The frame codec; the channel tables over all interleavings of the
  command loop with the channels; the command loops as programs on the bytes of a connection; the proof that
  what a loop does for one id is a run of the flow-control protocol; and the transport pool with its id counters.
* **Handshake** (`Hello`, `Handshake`), **stream frames** (`Websocket`, `WebsocketReader`), and
  `EndToEnd`, which puts the layers together.

## What the code does not keep

Each of these is a property one would expect; the lemmas give the condition under which it holds.

* `Confirm` compares with `>=` (channel.go:302), while the protocol document lets a peer return a whole
  window. A conforming peer is reported as overflowing exactly when a merge brings the whole window back
  at once (`Flow.OverflowExactly`), and this happens (`FlowRuns.ConformingPeerOverflows`).
* The server starts the channel before it posts the Create reply (server_transport.go:105-114), so Write
  frames can precede the reply. The client drops them without an answer, since `healthy` is never set to
  true. What is lost is exactly what was queued before the reply (`Flow.InOrder`); its credit never comes
  back, and a sender can be stuck for good (`FlowRuns.EarlyDataIsLost`).
* The pipe accepts a write after `closed` is set exactly when the writer had tested the flag before and
  there is room, and this happens (`PipeMonitor.FlagIsNotEnough`); never once the `Close` that set it is
  through (`PipeMonitor.ClosedAcceptsNothing`).
* The Close frame of `delete` follows every Write frame of its channel, but a Confirm frame can come
  after it. `serveConfirm` returns when it finds the channel closed, and its drain loop must find it so when
  there is no count. So a Confirm can follow exactly when it has not returned and either is in its split loop
  with something to confirm, or what is unconfirmed is not nothing and at least a third of the window
  (`FlowClosing.ConfirmMayFollow`; runs with and without one are in `FlowRuns.ConfirmFollowsClose`,
  `FlowClosing.NoConfirmFollows` and `FlowClosing.NoConfirmOfLess`).
* `ReadClientHello` reslices its buffer past the flag (core/hello.go:86) and then compares with the old
  size (core/hello.go:101): lists that fit before and not after run past the buffer. `Hellos.Readable` is
  the exact condition of the round trip; the automatic buffer fails for lists of 118 to 128 bytes. In the server,
  with its buffer of 256, a list of 246 to 256 bytes ends the process, and nothing else in a hello does
  (`Handshake.CrashExactly`).
* `websocketWriter.Close` without a `Write` sends no type byte, so the peer misreads what follows
  (`Websockets.SentIsRead`). An empty message is not forwarded by `readWS` at all (`Websockets.ReadWS`).
* The two decoders of stream frames agree exactly when the flags of the message are 0 and 1
  (`Websockets.DecodersAgree`); document/forward.md allows no others.
* A message that is cut off is taken for a complete one by the client unless the cut is before the end of the
  first header or strictly inside a later one, and leaves the server's channel open if the last header is whole
  (`WebsocketReaders.CutMessage`).
* After an error or EOF a further `Read` of `websocketReader` returns nothing and no error
  (websocket.go:131-133; `WebsocketReaders.Reader.Read`).
* A second Create reply, after one with a non-zero code and with no Close in between, finds no `rw`
  (client_transport.go:151) and ends the program; cancelled calls aside, nothing else that happens to the
  table does (`ClientPool.CrashesExactly`, `ClientPool.SecondReplyCrashes`).

## Model

| member | source | states |
|---|---|---|
| `Flow.CreditConserved` | channel.go:143-184 | in every reachable state, spent credit equals bytes in flight, in the chunk loop, in the ring, read and not confirmed, plus credit on its way back, plus an account of losses that is 0 for a healthy channel up to what was sent ahead of the reply |
| `Flow.NeverOverruns` | channel.go:148-163 | with a conforming peer `Pipe` always has room, the `confirm > writed` break is never taken, `remoteWindow - writed` never underflows, and the non-blocking branch of `choose` is never reached, also after losses |
| `Flow.InOrder` | channel.go:222-279 | accepted bytes are, in order, those missed before opening, delivered, in the ring, discarded after closing, in flight and unsent; a reader has a prefix of what was accepted unless data preceded the reply |
| `Flow.OverflowExactly` | channel.go:292-307 | a merge reports overflow to a conforming peer if and only if the merged total is the whole window, and then nothing is outstanding anywhere else |
| `Flow.StuckMeansUnread` | channel.go:157-162 | a healthy sender that cannot go on has a peer whose ring is full, up to the credit lost on opening |
| `Flow.RestDelivers` | channel.go:143-221 | when nothing can happen but new writes, all accepted bytes are delivered and all credit is back, up to what was lost on opening |
| `FlowProgress.RunsEnd` | channel.go:320-369 | every run, from any sound state and under any schedule, is at most as long as its start and the buffers accepted in it pay for |
| `FlowLedger.EventKeeps` | channel.go:281-308 | every step of every goroutine keeps the ledger of both directions and the windows |
| `FlowOrder.SendingKeepsOrder` | channel.go:172-181 | no step of the sending end reorders, drops or repeats a byte |
| `FlowOrder.ReceivingKeepsOrder` | server_transport.go:147-170 | neither does any step of the receiving end, whatever the chunks |
| `FlowOpening.ServerKeepsOpening` | server_transport.go:105-114 | the data the server queued before its reply is accounted for byte by byte until the client has the channel |
| `FlowOpening.ClientKeepsOpening` | client_transport.go:221-238 | the client drops exactly that data and no other |
| `FlowRuns.ConformingPeerOverflows` | channel.go:300-305 | a run in which a peer that confirms every byte it read makes the client report overflow and close |
| `FlowRuns.EarlyDataIsLost` | server_transport.go:106-112 | a run in which data sent ahead of the reply vanishes and its sender is stuck in front of an empty ring |
| `FlowClosing.ConfirmMayFollow` | channel.go:320-369 | after the Close of `delete` a Confirm can still be queued, behind it, if and only if `serveConfirm` has not returned and is in its split loop with something to confirm, or finds something unconfirmed that is at least a third of the window |
| `FlowClosing.WillConfirm` | channel.go:320-382 | while that holds, or on an open channel anything is unconfirmed, it can be read, gathered and confirmed |
| `FlowClosing.StaysSilent` | channel.go:320-369 | once it does not hold of a closed channel out of the table, no run makes it confirm anything |
| `FlowRuns.ConfirmFollowsClose` | channel.go:122-128 | a run that ends with a Confirm queued behind the Close |
| `FlowClosing.NoConfirmFollows` | channel.go:321-328 | a run in which the Close finds `serveConfirm` waiting for a count: two bytes are unread and no Confirm can follow |
| `FlowClosing.NoConfirmOfLess` | channel.go:330-342 | a run in which it has gathered a byte and has not returned, and no Confirm can follow either |
| `FlowClosing.ClosingGetsDone` | channel.go:122-128 | when nothing but the application can move, a closed channel is out of the table, its pipe is closed, its goroutines have returned and its queue is empty |
| `FlowTold.ClosesExactly` | base_transport.go:158-167 | in every run the Close frames of an end, taken, on their way or next, are as many as overflows, Confirms without an open channel, replies nobody waits for, and `delete`s of a channel in the table |
| `FlowTold.ClosingTells` | base_transport.go:158-167 | in `sendClose` the transport loop queues one Close frame and goes on |
| `FlowTold.QueuesAreBounded` | channel.go:69 | the queue and `sendConfirm` never hold more than their capacity |
| `FlowShared.MoveFollows` | base_transport.go:83-124 | with many channels on a connection, each step is one step of the protocol for one channel and nothing for the others |
| `FlowShared.ReceivesAnything` | server_transport.go:127-188 | in no run does the loop meet a frame of a channel that was not opened |
| `FlowShared.RoomIsShared` | base_transport.go:139-155 | a channel waits for room in the shared queue and for nothing else of it |
| `FlowShared.SharedQueuesAreBounded` | base_transport.go:158-167 | nor does the shared queue |
| `FlowShared.ChannelsAreFlows` | server_transport.go:63-193 | in every run of a connection each channel is in a reachable state of the protocol for one channel, so all of module Flow holds of each |
| `FlowSharedRest.ConnectionEnds` | base_transport.go:83-124 | no run of a connection is longer than the channels opened and the buffers accepted in it pay for |
| `FlowSharedRest.ConnectionRests` | server_transport.go:63-193 | when a connection cannot move, each of its channels is at rest in both directions |
| `FlowSharedRest.ChannelsDeliver` | channel.go:143-221 | and then each healthy channel has delivered what is not in a ring, and has all credit back when the rings are empty, up to what was lost on opening |
| `Channels.PumpSplits` | channel.go:156-183 | one pass of the inner loop cuts the buffer into payloads of 1..65535 bytes, in order, and stops with nothing left or the window full |
| `Channels.Sender.PumpOut` | channel.go:157-183 | the loop emits the frames of that pass, with id and length in each header |
| `Channels.Sender.Take` | channel.go:145-155 | taking a confirm keeps the leftover bytes, and breaks off only if more came back than was sent |
| `Channels.Sender.Round` | channel.go:144-184 | one turn ends `Serve` if and only if more credit came back than was spent, or it is a stop, or the pass has more frames than fit the queue before the end |
| `Channels.Sender.Serve` | channel.go:122-185 | for any sequence of buffers and confirms, the payloads and the leftover make up the buffers taken, `writed` is what was sent minus what came back, within the window, and what ends it is the last input taken and no earlier one |
| `Channels.OnlyCausesEnd` | channel.go:143-184 | offers without a stop and without credit that was not spent leave it waiting, if the queue has room |
| `Channels.Mailbox.Confirm` | channel.go:281-308 | it never waits, ends within two rounds, and reports overflow exactly when the merge reaches the window; `Serve` gets what was there if it looks in between, and the mailbox the value, or the sum |
| `Channels.Confirmer.Gather` | channel.go:321-342 | the drain loop takes counts off the front one by one, none once a third of the window is gathered, and loses none; it returns when a select finds the channel done |
| `Channels.Confirmer.Emit` | channel.go:345-366 | each frame lies in its own 11 bytes of the arena and no frame handed over is written again |
| `Channels.Confirmer.Settle` | channel.go:344-368 | the split loop ends and its frames carry the values of `Splits`, or the first of them if a select finds the channel done, earlier frames untouched |
| `Channels.Confirmer.ServeConfirm` | channel.go:310-370 | the frames, what is abandoned when a select finds the channel done, and what is not taken add up to exactly the read counts |
| `Channels.SplitsAddUp` | channel.go:344-368 | the values of the split loop fit a frame, are not 0 and add up |
| `ChannelFlow.PassIsPump` | channel.go:157-183 | under every schedule of all goroutines of both ends, the payloads handed over are the first ones the loop computes |
| `ChannelFlow.PassEnds` | channel.go:156-183 | and all of them when the pass is over, with `b` and `writed` as the loop computes them |
| `ChannelFlow.SplitIsSplits` | channel.go:344-368 | likewise the values of the Confirm frames |
| `ChannelFlow.GatherIsDrain` | channel.go:330-342 | under every schedule the drain loop adds up the counts it takes and takes none once a third of the window is gathered |
| `ChannelFlow.OverpaidLeaves` | channel.go:148-155 | `Serve` leaves and closes if and only if more credit comes back than `writed`, whoever the peer is |
| `ChannelFlow.PumpRuns` | channel.go:157-183 | from any state, with any queue and at either end, the protocol can carry out a whole pass |
| `ChannelFlow.SettleRuns` | channel.go:344-368 | from any state, with any queue and at either end, the protocol can carry out the split loop |
| `ReadWriters.ReadWriter.Write` | pipe/read_writer.go:48-64 | for every wrap position, all of the bytes are appended to the contents or none |
| `ReadWriters.ReadWriter.Read` | pipe/read_writer.go:67-79 | exactly the first min(len, size) bytes move to the caller's buffer, the rest of which is untouched |
| `ReadWriters.ReadWriter.ReadOnce` | pipe/read_writer.go:80-90 | one stretch up to the end of the array, never empty, so the loop ends |
| `ReadWriters.WriteWraps` | pipe/read_writer.go:59-60 | the two copies of a write append to the window without touching unread bytes |
| `ReadWriters.WindowDrops` | pipe/read_writer.go:87-88 | moving the offset modulo the capacity drops exactly the bytes read |
| `PipeReaders.PipeReader.Write` | pipe/pipe_reader.go:38-57 | closed, full or stored as a whole |
| `PipeReaders.PipeReader.Close` | pipe/pipe_reader.go:27-37 | the pipe is closed and its bytes stay |
| `PipeReaders.NoWriteAfterClose` | pipe/pipe_reader.go:38-45 | after a Close no write gets in, whatever is tried |
| `PipeReaders.CloseWakes` | pipe/pipe_reader.go:71-79 | a Close ends the wait of a reader |
| `PipeReaders.PipeReader.Read` | pipe/pipe_reader.go:58-84 | bytes come out in order across any number of wake-ups, EOF means closed and drained, a reader stays parked only on an empty, open pipe, and not if there is a Close |
| `PipeMonitor.NoLostWakeup` | pipe/pipe_reader.go:27-79 | in every interleaving a parked reader has nothing to do, or a writer or closer is on its way to a broadcast |
| `PipeMonitor.StuckMeansWaiting` | pipe/pipe_reader.go:71-79 | if no thread can run, every call has returned except readers of an empty, open pipe |
| `PipeMonitor.NothingLost` | pipe/pipe_reader.go:38-84 | accepted is read plus ring, and EOF is returned only after the last byte |
| `PipeMonitor.ReadTakes` | pipe/pipe_reader.go:62-83 | a read with the lock takes the first bytes, as many as it wants or there are; without any it ends if the pipe is closed and waits otherwise |
| `PipeMonitor.WriteStores` | pipe/pipe_reader.go:46-50 | a write that has tested the flag stores all of its data or none |
| `PipeMonitor.ClosedAcceptsNothing` | pipe/pipe_reader.go:27-44 | after the Close that set the flag, and after an EOF, no write gets in, for good |
| `PipeMonitor.FlagIsNotEnough` | pipe/pipe_reader.go:28-47 | a write gets in with the flag set if and only if its thread had tested the flag before and there is room; and a run in which it does |
| `Frames.ParseEncode` | server_transport.go:64-192 | every frame is self-delimiting in both directions, Create with 9 bytes up and 10 down |
| `Frames.EncodeParse` | client_transport.go:108-265 | what a loop accepts is an encoding, byte for byte |
| `Frames.WireLayout` | channel.go:168-172 | the frames byte for byte: command numbers, field order and widths of document/transport.md |
| `Frames.StreamRoundTrip` | server_transport.go:64-192 | any sequence of frames is recovered and its bytes are used up exactly |
| `Frames.StreamIsEncoding` | client_transport.go:108-265 | whatever the stream, the commands carried out encode exactly what was read before the loop stopped |
| `Frames.StreamExtends` | server_transport.go:73-76 | bytes that arrive later never change a command already carried out |
| `Frames.PongEchoes` | base_transport.go:128-138 | the answer to a pong is the frame that was received |
| `BaseTransport.BufferedWriter.Write` | base_transport.go:78-81 | the buffer delays bytes and never reorders or drops them |
| `BaseTransport.ServeWrite` | base_transport.go:83-124 | the bytes on the connection are the frames in queue order, with nothing buffered when the loop waits |
| `BaseTransport.ServeWriteDirect` | base_transport.go:83-124 | the same without a write buffer |
| `ServerTable.StepKeepsTable` | server_transport.go:84-228 | every command and every step of a channel keeps the table: own id, limit, closed outside it, ring within the window |
| `ServerRuns.TableSafe` | server_transport.go:95-126 | over whole runs entries are stored under their own id, the limit is kept, and a channel outside the table is closed |
| `ServerRuns.AnsweredOnce` | base_transport.go:128-167 | in every run all that is due is sent, or waits to be sent, exactly as often as it is due, and nothing else: the reply with the code the table determined for each Create, the echo of each pong, a Close for each overflow and each Confirm of an unknown id, and the frames of the channels |
| `ServerRuns.CreateAnswers` | server_transport.go:95-110 | 0, 1 and 2 say which check failed, and a channel is made exactly with 0 |
| `ServerRuns.RemovalIsTold` | server_transport.go:207-219 | each `delete` that took its channel from the table sends one Close, and no other does |
| `ServerRuns.CloseMeans` | server_transport.go:115-126 | a Close closes the channel, takes its entry and no other, or does nothing |
| `ServerRuns.CloseIsLast` | server_transport.go:207-219 | no Write frame of a channel follows the Close of its `delete`, and there is one such Close at most |
| `ServerRuns.StaleDelete` | server_transport.go:207-219 | the `delete` of a replaced channel changes no entry and sends no Close, then or later |
| `ServerRuns.OthersUntouched` | server_transport.go:127-188 | a Write or Confirm leaves the table and every other channel alone |
| `ServerRuns.WriteArrives` | server_transport.go:134-170 | a payload of any length arrives in order and in full if there is room, else as a prefix and the channel is closed, whatever the buffer |
| `ServerTransports.ServerTransport.Write` | server_transport.go:134-170 | the chunk loop on the bytes of the connection, also when they end inside the payload |
| `ServerTransports.ServerTransport.Create` | server_transport.go:91-114 | table, channel object and reply of a Create |
| `ServerTransports.ServerTransport.Serve` | server_transport.go:63-200 | on any input the loop carries out exactly the commands the stream encodes and the whole chunks of a Write it breaks off in; then every channel is closed, and its bytes and mailbox stay |
| `ServerTransports.PartialIsChunks` | server_transport.go:147-156 | the chunk loop on a stream that holds the payload is the chunk loop on the payload |
| `ServerTransports.PartialTakesChunks` | server_transport.go:147-156 | of a payload that is cut off the whole chunks get through and no more |
| `ServerTransports.ServesFrames` | server_transport.go:63-193 | sending any frames has the effect of carrying them out one by one |
| `LoopFlow.CreateStarts` | server_transport.go:102-109 | a Create answered with 0 starts the flow-control protocol |
| `LoopFlow.WriteRuns` | server_transport.go:134-170 | the chunk loop on a Write is a run of the protocol, at either end |
| `LoopFlow.ConfirmRuns` | client_transport.go:240-261 | so is what a loop does with a Confirm, overflow and closed channels included, with a Close frame queued exactly when the loop queues one |
| `LoopFlow.CommandsRun` | server_transport.go:63-193 | for any commands for any channels, what the server's loop leaves of channel `id`, and the Close frames it queues for it, are those of a run of the protocol on its frames |
| `LoopFlow.BytesRun` | server_transport.go:63-193 | the same from the bytes of the connection |
| `LoopFlow.ClientCommandsRun` | client_transport.go:107-266 | the same for the client's loop and a channel it has made, repeated replies included |
| `ClientPool.IdsNeverRepeat` | client_transport.go:327-348 | a transport is handed out at most 2^64-1 times, its ids are distinct and in 1..2^64-1, and each gets one channel at most, whatever the server answers |
| `ClientPool.CreateIsFresh` | client_transport.go:328-347 | the counter never wraps and a new id has no entry and no channel |
| `ClientPool.GivenUpExactly` | client.go:135-139 | a live transport is given up with hand-out number 2^64-1 and with no other |
| `ClientPool.ReplyMakes` | client_transport.go:133-173 | a reply makes a channel if and only if it is the first for a waiting id and says 0, and ends the program if and only if the id has an entry with neither a call nor a channel |
| `ClientPool.CrashesExactly` | client_transport.go:150-162 | over whole runs a step ends the program if and only if it is a reply to an id that an earlier reply refused, with no Close for it in between |
| `ClientPool.SecondReplyCrashes` | client_transport.go:150-162 | a run in which that happens |
| `ClientPool.Client.Answer` | client.go:113-139 | a live transport is handed out again; a dead one never is, a new one takes its place if it connects, and all others stay as they are |
| `ClientPool.DeadIsNotGranted` | client.go:114-134 | in every reachable pool |
| `ClientPool.AbandonedStays` | client.go:102-139 | a transport that is given up is never handed out again |
| `ClientPool.Client.Serve` | client.go:100-141 | the loop is the run of its requests |
| `ClientTransports.StepKeepsView` | client_transport.go:121-290 | every command, `Create` and step of a channel keeps the client's table |
| `ClientTransports.ClientTableSafe` | client_transport.go:121-290 | over whole runs an open channel is in the table under its id, rings are within the window, and ids are not shared |
| `ClientTransports.RepliesMean` | client_transport.go:133-173 | a reply is answered with a Close if and only if the id is unknown or has a channel; the first Ok makes an open, empty channel |
| `ClientTransports.ClientAnswersOnce` | base_transport.go:128-167 | in every run all that is due to the server is sent, or waits to be sent, exactly as often as it is due, and nothing else |
| `ClientTransports.ClientWrites` | client_transport.go:188-239 | a Write for an id without a channel leaves no trace; otherwise it arrives in full, or as a prefix and the channel is closed |
| `ClientTransports.ClientLeavesOthers` | client_transport.go:188-261 | a Write or Confirm leaves every other channel alone |
| `ClientLoops.ClientTransport.Created` | client_transport.go:132-173 | table, channel object and answer for every kind of Create reply |
| `ClientLoops.ClientTransport.Write` | client_transport.go:195-239 | the chunk loop on the bytes of the connection |
| `ClientLoops.ClientTransport.Serve` | client_transport.go:107-276 | on any input the loop carries out exactly the commands the stream encodes, up to a crash; without one every channel is then closed, and its bytes and mailbox stay |
| `ClientLoops.ClientServesFrames` | client_transport.go:107-266 | sending any frames has the effect of carrying them out one by one |
| `Hellos.VerifyClient` | core/hello.go:121-140 | the computed size is the size of the message |
| `Hellos.MarshalClient` | core/hello.go:141-194 | the message is at the start of the buffer, the rest is untouched, and each refusal has its cause |
| `Hellos.ReadClientHello` | core/hello.go:62-120 | the reader in a reused buffer computes `ReadClient`, its failures included |
| `Hellos.ClientRoundTrip` | core/hello.go:62-194 | a well-formed hello is read back if and only if the buffer is of a readable size |
| `Hellos.ClientCanonical` | core/hello.go:62-120 | only a well-formed hello is accepted, byte for byte |
| `Hellos.SplitJoin` | core/hello.go:115-118 | splitting a joined version list returns it when no version has a comma |
| `Hellos.MarshalServer` | core/hello.go:271-341 | as for the client |
| `Hellos.ReadServerHello` | core/hello.go:208-269 | as for the client |
| `Hellos.ServerRoundTrip` | core/hello.go:208-341 | a well-formed reply is read back if and only if the buffer is empty or large enough |
| `Hellos.ServerCanonical` | core/hello.go:208-269 | only a well-formed reply is accepted, byte for byte |
| `Hellos.ClientOnTheWire` | core/hello.go:141-160 | a hello byte for byte |
| `Hellos.ServerOnTheWire` | core/hello.go:286-307 | a reply byte for byte |
| `Handshake.Hello` | server.go:246-274 | the search for a version gives the verdict of `Judge`, a slice past the buffer included |
| `Handshake.SendHello` | server.go:229-245 | the reply carries the version or the description of the code |
| `Handshake.OkExactly` | server.go:246-274 | the server agrees if and only if "1.0" is listed and the list fits its buffer |
| `Handshake.OkOnly` | server.go:246-274 | nothing but such a hello is agreed to |
| `Handshake.VerdictExactly` | server.go:246-274 | the verdict on any stream, field by field, with the codes of document/transport.md and the bytes passed to the backend |
| `Handshake.AcceptsOnly` | client_transport.go:57-69 | the client accepts nothing but the reply of a server that agreed |
| `Handshake.CrashExactly` | core/hello.go:86-110 | the server process ends on a hello if and only if flag and window are in order and the list is announced with 246 to 256 bytes |
| `Handshake.LongListCrashes` | server.go:143-160 | a well-formed hello ends it if and only if its version list has such a length |
| `Handshake.ClientLearns` | client_transport.go:57-69 | the client gets the server's window if and only if the server agreed, and understands every refusal |
| `Handshake.Agreement` | client_transport.go:43-83 | each end's remote window is the other's configured window |
| `Websockets.Writer.Write` | websocket.go:190-238 | any buffer becomes chunks of 1..65535 bytes in order, after the type byte if it is the first |
| `Websockets.Writer.Close` | websocket.go:174-188 | the end of the message, once, type byte or not |
| `Websockets.MessageRoundTrip` | websocket.go:94-162 | both decoders recover type and payload for any chunking and stop at the end of the message |
| `Websockets.MessageOnTheWire` | websocket.go:190-238 | a message byte for byte |
| `Websockets.SentIsRead` | websocket.go:174-188 | what the client's writer leaves is read as the message if and only if `Write` was called |
| `Websockets.DecodersAgree` | server_handler.go:302-319 | the two decoders agree on a stream, whole or not, if and only if the flags of its first message are 0 and 1 |
| `Websockets.ReadWS` | server_handler.go:239-282 | the server's encoder in one reused buffer sends the chunks of the message, and nothing for an empty one |
| `WebsocketReaders.Reader.Read` | websocket.go:128-162 | each read takes a prefix of what is still to come, makes progress, and reports EOF only when nothing is left |
| `WebsocketReaders.ReadMessage` | websocket.go:94-118 | buffer sizes and the pieces the channel hands over do not change the message, nor what remains of the stream |
| `WebsocketReaders.WholeIsReported` | websocket.go:111-118 | a whole message is reported with its data and leaves what follows it |
| `WebsocketReaders.WriteWS` | server_handler.go:283-322 | the message forwarded is the one decoded, and the channel is given up exactly when the stream ends before the last chunk's header |
| `WebsocketReaders.CutMessage` | websocket.go:94-161 | of a message cut off anywhere the client reports an error if and only if the cut is before the end of the first header or strictly inside a later one, and the server closes the channel if and only if the last header is not whole (and it knows the type); both keep exactly the data before the cut |
| `WebsocketReaders.MessagesRoundTrip` | websocket.go:174-238 | any list of messages is recovered by the opposite decoder |
| `WebsocketReaders.DecodedSoFar` | websocket.go:128-162 | messages decoded from part of a stream are the first ones of all of it |
| `EndToEnd.Connects` | client_transport.go:43-83 | the hellos exchanged give exactly the link the flow control starts with |
| `EndToEnd.MessagesArrive` | websocket.go:94-238 | over a link made by the handshake, in every run, the messages decoded are at any moment the first ones written |
| `EndToEnd.MessagesArriveOnEach` | server_transport.go:63-193 | the same for each of any number of channels that share a connection |
| `EndToEnd.MessagesAllArrive` | channel.go:143-221 | at rest all of them have arrived and all credit is back |
| `EndToEnd.FramesArrive` | base_transport.go:83-124 | the frames of the queue, however grouped and buffered, are the commands the peer carries out; part of the bytes gives the first of them |

## Left out

- TCP failures: the connection is a reliable queue of bytes; errors in `serveWrite` and dropped data in transit are not modelled.
- Deadlines, timers, `servePing` and the `active` signals: they depend on the clock.
- Cancelled `Create` calls (client_transport.go:151-157, 294-299): a reply always finds its caller waiting.
- Forwarding, JSON metadata, HTTP, `httpConn`, options and everything under cmd/: wrappers around input and output.
- FlowState: goroutines of `postWrite` wait for room like any sender, `select` is a choice among the enabled cases, the loop's lookup of a channel and the `Pipe` of one chunk are one step, and so are the swap of `closed` and `cancel` in `Close`; a goroutine parked in a select when the channel closes is one that has taken its closing case.
- LoopFlow: starts with a channel that the end holds; how the client comes to hold it is in FlowOpening and ClientPool. The queues of the two models are not compared.
- ClientTransports: the way of the frame of `Create` through the queue; `ClientLoops.ClientTransport.Create` only gives its bytes.
- FlowShared: ids are not used again on a connection, which ClientPool proves of the client.
- `sendClose` blocks the command loop while the queue is full; in ServerTable and ClientTransports it puts its frame there at once.
- ServerTable: `Confirm` is one step there; its interleaving with `Serve` is in FlowState and in `Channels.Mailbox.Confirm`. On a closed channel it drops the credit in `OnConfirm` and takes it in step `Late`; the programs ServerTransport and ClientTransport only drop it.
- ServerTable: channel objects are known by the order of their creation instead of by reference, and of a channel only its pipe, mailbox, exit and unconfirmed bytes are kept.
- Buffers passed to the hello readers are whole arrays: their capacity is their length.
- Aliasing of Go strings with read buffers (`BytesToString`) is not modelled; byte sequences are values.
- `Websockets.ReadWS`: errors of the WebSocket connection other than the end of a message, and write errors of the channel.
- `WebsocketReaders.WriteWS`: write errors of the WebSocket connection, and its limit on control frames.
- Locks of the WebSocket reader and writer: their callers take turns.
