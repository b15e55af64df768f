# nopanic, modelled and proved in Dafny

nopanic is an onion network: a client builds a circuit of three or more relays, wraps every cell in one
layer per relay, and an exit relay serves the streams in it. A directory registers the relays and chooses
paths; the client keeps a pool of circuits. This project models these parts and proves what they keep.

## What is modelled

- The **wire** (`Cells`, `ExtendCodec`): the 514-byte cell, a stream of cells, and the EXTEND payload, each as a
  printer and a parser with the theorems that connect them.
- The **ciphers and digests** (`Crypto`, `Onion`): stateful ciphers over an abstract keystream, of which only that a
  layer preserves length and undoes itself at the same position is used; running digests over an abstract
  4-byte snapshot; the client's N-layer engine, in place over an array.
- The **parties** (`Client`, `Relay`, `Exit`, `Chunking`): the client's circuit and its reader, entry and middle
  relays, the exit and its stream tasks. Each is a class whose methods are proved equal to step functions.
- The **handshakes** (`Handshake`, `Telescope`): ntor over abstract DH and HMAC, and the build loop, in which every
  EXTEND travels out through all hops so far and back.
- The **network** (`Network`, `Pipeline`, `Sync`, `Runs`, `Positions`, `Limits`, `Draining`): one client, any number
  of relays, an exit, and FIFO wires, as a state machine over twenty actions. A step is what happens under one lock.
  The invariant is that all keystream positions and both digest transcripts agree, cells in flight included.
- The **streams** (`Streams`, `Pipes`, `Ledger`, `Reuse`, `EndToEnd`): on top of that, every stream is a pair of byte
  pipes, and which streams the exit serves can be read off what it accepted.
- **Overtaking** (`Lines`, `Hearing`, `Overtaking`, `Witness`): what becomes of a circuit on which a stream task
  writes a cell before a reply that was sealed first: when it happens, that it happens, and what the client still
  believes. `Refusal` is the same question for a cell that the client seals and cannot write.
- The **connection loop** of a relay (`Connection`, `Service`), over many circuits, and that it is what the network
  does.
- **Tampering** (`Tamper`): what the digest still guarantees when wires are not FIFO.
- The **directory** (`Registry`, `PathChoice`) and the **pool** (`Pool`).

Both directions of a circuit apply the same kind of layer list, so both are instances of one theory: `Pipeline`
is a line of stations with layers and wires between them, proved once and used for each.

## Results that are not what one might expect

- A cell that does not fit is refused only after the client's keys and digest have moved, so sending
  keeps the circuit usable exactly when the payload fits (`Limits.SendKeepsSyncIffFits`). After a refusal the exit
  accepts what was sent before and rejects the next cell, collisions apart (`Refusal.RefusalStopsExit`).
- Four reply paths of the exit seal a cell under the lock and write it after the lock is released. A stream
  task can write in between, and on every circuit there is a run in which one does (`Witness.OvertakingHappens`).
  The backward line is then out of step, exactly unless the cell is the reply itself
  (`Overtaking.TaskKeepsSyncIff`), and the client tears the circuit down at the overtaking cell
  (`Overtaking.OvertakingClosesClient`). Keystream positions agree all the same (`Positions.BackwardPositionsAgree`),
  and the client still accepts nothing but a prefix of what was sealed, now relying on the digest.
- Stream ids repeat after 65535 allocations (`Pipes.IdsRunOut`) and nothing checks that the stream before is over.
  The stream theorems hold for runs of any length in which it is (`Pipes.SpareIds`), and `Reuse.ReusedIdMisleads` is a
  run in which it is not and they fail.
- The digest input has no length field. The tampering theorems need the payload lengths from elsewhere, and
  `Tamper.LengthsMatter` shows why. Snapshots have four bytes, so freedom from collisions is asked only for
  the transcripts compared.
- Sums and shifts wrap around in release builds. The weighted draw is exact if and only if the total fits in
  64 bits; the backoff is exact if and only if there were fewer than 64 failures (or luckily beyond).
- The monitor looks at the abandoned slots and at the failure counts under two locks. A retry budget bounds the
  backoff only together with the failures that come in between (`Pool.LateFailures`, `Pool.LateFailuresOverflow`).
- The monitor means to retry a slot with growing waits, but a failed replacement has already removed its id from
  the pool: a second failure needs a replacement of an id that is not there (`Pool.SecondFailureNeedsAbsence`),
  which a monitor working from an old list and the SOCKS proxy can ask for.

## Model

| member | source | states |
|---|---|---|
| `EndToEnd.CircuitDelivers` | services/tor-client/src/core/circuit.rs:117-198 | for any path and any chain that `Build` ends with, with a true directory or tags that do not collide: the relays stand where a run of the network starts; after any run that hands no stream id out too early all parties are in lockstep, every wire reads back from its bytes, every destination was handed a prefix of what its SOCKS client sent, and every SOCKS client a prefix of what its destination sent, this last as long as, once a cell overtook a reply, what the client compares does not collide |
| `Cells.FromU8` | services/common/src/protocol.rs:45-59 | a byte is accepted as a command exactly when it is that command's code, and for no other command |
| `Cells.EncodeLayout` | services/common/src/protocol.rs:171-218 | every field of a cell sits in its own slot, the payload is cut at 497 bytes and the rest is noise |
| `Cells.DecodeEncode` | services/common/src/protocol.rs:225-295 | decoding undoes encoding for any noise and any tail; a payload over 497 bytes comes back as its 497-byte prefix, all others whole |
| `Cells.EncodeDecode` | services/common/src/protocol.rs:225-295 | every accepted cell re-encodes to the same 514 bytes, its own tail taken as the noise |
| `Cells.DecodableIff` | services/common/src/protocol.rs:225-295 | a byte string is accepted if and only if it starts with the encoding of a message that fits |
| `Cells.ToBytes` | services/common/src/protocol.rs:171-218 | the 514-byte buffer filled in place, field by field, holds exactly the encoding |
| `Cells.ReadAllEncodeAll` | services/common/src/protocol.rs:312-329 | a concatenation of cells followed by any shorter tail reads back as exactly those messages and then the end of the stream |
| `Crypto.LayersCancel` | services/tor-client/src/core/crypto_engine.rs:26-38 | layers put on last hop first and taken off first hop first, at the same positions, cancel for any number of hops; only that a layer is its own inverse is used |
| `Crypto.LayerTwice` | services/common/src/crypto.rs:29-56 | one cipher at one position undoes itself |
| `Crypto.LayerSplits` | services/common/src/crypto.rs:29-56 | a stream enciphered in pieces, each where the last left off, is the stream enciphered at once |
| `Crypto.CipherPair.ApplyForward` | services/common/src/crypto.rs:48-51 | in place: the buffer gets one layer at the current position and the position moves on by the payload length |
| `Crypto.CipherPair.ApplyBackward` | services/common/src/crypto.rs:53-56 | the same for the other direction, whose position is its own |
| `Crypto.RunningDigest.Update` | services/common/src/crypto.rs:81-91 | the digest absorbs stream id, command and data on top of all it absorbed before, and gives the snapshot of that |
| `Crypto.RunningDigest.Verify` | services/common/src/crypto.rs:93-97 | absorbs whether or not it matches, and matches exactly when the snapshot is the given tag |
| `Crypto.FrameInjective` | services/common/src/crypto.rs:81-85 | one absorbed cell determines its stream, command and data |
| `Onion.OnionKeys.OnionEncrypt` | services/tor-client/src/core/crypto_engine.rs:24-30 | in place over all hops: the buffer gets every forward layer, exit's first, and every hop's forward position moves on by the same length |
| `Onion.OnionKeys.OnionDecrypt` | services/tor-client/src/core/crypto_engine.rs:32-38 | in place over all hops: the buffer gets every backward layer, entry's first, and every hop's backward position moves on |
| `Onion.OuterLayer` | services/tor-client/src/core/crypto_engine.rs:26-30 | each hop's layer goes on outside those of the hops behind it |
| `Relay.RelayHandler.Activate` | services/relay-node/src/circuit/handler.rs:211-216 | a fresh cipher pair at position zero under the agreed key |
| `Connection.HandleAtRelay` | services/relay-node/src/circuit/entry.rs:265-297 | whatever the message: the handler object of an entry or middle relay is left as the step functions say and answers what they say; relayed cells lose one layer and keep header and digest, CREATE and EXTEND included, PADDING changes nothing, DESTROY closes |
| `Relay.RelayHandler.HandleBackward` | services/relay-node/src/circuit/middle.rs:272-291 | a message from the next hop gets one backward layer and keeps header and digest; the entry relay passes a DESTROY on as a fresh one |
| `Connection.HandleAtExit` | services/relay-node/src/circuit/exit.rs:527-555 | whatever the message: the handler object of an exit is left as `ExitStep` says and answers what it says; CREATE puts fresh ciphers and digests in place |
| `Exit.ExitHandler.HandleBegin` | services/relay-node/src/circuit/exit.rs:100-224 | peel, verify, dial; CONNECTED is written under the lock, a refusal returns an END |
| `Exit.ExitHandler.HandleData` | services/relay-node/src/circuit/exit.rs:368-460 | peel, verify, queue for the stream's task, or return an END if that has stopped or the stream is unknown |
| `Exit.ExitHandler.HandleEnd` | services/relay-node/src/circuit/exit.rs:462-525 | peel and verify even an empty payload, forget the stream, return an END |
| `Exit.ExitHandler.SendChunk` | services/relay-node/src/circuit/exit.rs:281-303 | one turn of a task's chunk loop seals and writes one cell of the stream, on a crypto state of its own reference, also after DESTROY took the handler's |
| `Exit.ExitHandler.SendEnd` | services/relay-node/src/circuit/exit.rs:246-272 | the destination closed: one END is sealed and written, again on its own reference, and the stream worker is over |
| `Client.StreamIdsDistinct` | services/tor-client/src/core/circuit.rs:50-57 | id 0 is never handed out and two allocations share an id exactly when they are a whole number of rounds of 65535 apart |
| `Client.Circuit.AllocateStreamId` | services/tor-client/src/core/circuit.rs:50-57 | hands out the next id and skips 0 on the wrap |
| `Client.Circuit.SendMessage` | services/tor-client/src/core/circuit.rs:68-94 | digest, all layers, write; a payload that does not fit is refused after keys and digest have moved |
| `Client.Circuit.ReadCell` | services/tor-client/src/core/circuit.rs:661-747 | one turn of the circuit reader: DESTROY and a digest mismatch close the circuit, anything else goes to its stream's channel if there is one |
| `Pipeline.SendSync` | services/tor-client/src/core/circuit.rs:68-94 | sealing a cell at one end of a line of stateful layers keeps every station and every wire in step |
| `Pipeline.PassSync` | services/relay-node/src/circuit/middle.rs:241-291 | a station that takes a cell, applies its layers and passes it on keeps the line in step |
| `Pipeline.NextArrival` | services/relay-node/src/circuit/exit.rs:116-133 | the cell at the far end is exactly the next one of the log with all layers applied |
| `Pipeline.ArriveSync` | services/relay-node/src/circuit/exit.rs:116-133 | taking it off keeps the line in step |
| `Pipeline.ControlSync` | services/relay-node/src/circuit/middle.rs:312-317 | PADDING and DESTROY come and go anywhere without breaking the line |
| `Pipeline.StationLag` | services/tor-client/src/core/circuit.rs:68-94 | where two stations hold one cipher, the earlier is ahead by exactly the payload bytes in between |
| `Sync.BuiltLockstep` | services/tor-client/src/core/circuit.rs:176-197 | a circuit just built is in lockstep, wherever its positions stand |
| `Sync.ExitOpens` | services/relay-node/src/circuit/exit.rs:116-133 | the exit gets back exactly the next cell the client sealed, and the digest verifies |
| `Sync.ClientOpens` | services/tor-client/src/core/circuit.rs:697-715 | the client gets back exactly the next cell the exit sealed, and the digest verifies |
| `Sync.ClientSendsLockstep` | services/tor-client/src/core/circuit.rs:68-94 | sending a cell that fits keeps all parties in lockstep |
| `Sync.PaddingLockstep` | services/tor-client/src/core/circuit.rs:901-910 | a keepalive PADDING cell, which no cipher or digest sees, keeps all parties in lockstep |
| `Sync.RelayTakesLockstep` | services/relay-node/src/circuit/entry.rs:211-297 | a relay taking a cell from the client's side keeps all parties in lockstep |
| `Sync.RelayReturnsLockstep` | services/relay-node/src/circuit/middle.rs:272-291 | a relay taking a cell from the exit's side, DESTROY included, keeps all parties in lockstep |
| `Sync.ExitTakesLockstep` | services/relay-node/src/circuit/exit.rs:368-525 | the exit taking a cell, for known, unknown or closed streams, keeps all parties in lockstep |
| `Sync.TaskWritesLockstep` | services/relay-node/src/circuit/exit.rs:281-303 | a stream task sealing and writing under the lock keeps lockstep, backward as long as no reply waits |
| `Sync.WriteReplyLockstep` | services/relay-node/src/main.rs:409-418 | writing a waiting reply later keeps all parties in lockstep |
| `Sync.TearDownLockstep` | services/relay-node/src/circuit/entry.rs:400-407 | a DESTROY injected on any backward wire keeps all parties in lockstep |
| `Sync.ClientTakesLockstep` | services/tor-client/src/core/circuit.rs:661-747 | the client reading a cell, registered stream or not, keeps all parties in lockstep |
| `Runs.LockstepStep` | services/tor-client/src/core/circuit.rs:68-94 | every one of the twenty actions of the network keeps the invariant |
| `Runs.LockstepRun` | services/tor-client/src/core/circuit.rs:68-94 | so does every run |
| `Runs.ForwardPositionsAgree` | services/tor-client/src/core/circuit.rs:68-94 | in every such state, for every hop, the client's forward cipher is the hop's, ahead by exactly the payload bytes in enciphered cells on the wires up to the hop |
| `Positions.BackwardPositionsAgree` | services/relay-node/src/circuit/exit.rs:281-303 | the mirror, in every state of every run, also after a cell overtook a reply: every hop's backward cipher is the client's for it, ahead by exactly the bytes on the wires from the hop |
| `Positions.SpacedStep` | services/relay-node/src/circuit/exit.rs:281-303 | every action keeps that distance |
| `Runs.RelaysAcceptAll` | services/relay-node/src/circuit/entry.rs:265-297 | no relay ever stops on a cell of the circuit, in either direction |
| `Runs.ExitAcceptsAll` | services/relay-node/src/circuit/exit.rs:368-397 | the exit never sees a digest mismatch and fails only on a destination that is not UTF-8 |
| `Runs.ClientAcceptsAll` | services/tor-client/src/core/circuit.rs:697-715 | the client never sees a digest mismatch and reads exactly the next cell the exit sealed |
| `Runs.DestroyCloses` | services/tor-client/src/core/circuit.rs:675-690 | a DESTROY that reaches the client, or the loss of its entry relay, closes the circuit and every channel and delivers nothing |
| `Runs.ClosedIsFinal` | services/tor-client/src/core/circuit.rs:661-747 | and nothing is delivered ever after |
| `Runs.WiresSurviveCodec` | services/common/src/protocol.rs:312-356 | whatever is on a wire fits in cells and reads back from their bytes unchanged |
| `Limits.SendKeepsSyncIffFits` | services/tor-client/src/core/circuit.rs:74-87 | sending keeps the forward line in step if and only if the payload is at most 497 bytes: a refused cell has already moved the keys |
| `Refusal.RefusalStopsExit` | services/tor-client/src/core/circuit.rs:74-87 | in every run after a refused send, the exit accepts a prefix of what was sent before it, and when it has all of that it rejects whatever cell reaches it next, as long as what it compares does not collide |
| `Refusal.SkippedStep` | services/relay-node/src/circuit/exit.rs:116-133 | every action keeps the gap: on its way is the rest of what was sent before, and then only what was sealed after the refused cell |
| `Refusal.SentBeforeArrives` | services/relay-node/src/circuit/exit.rs:116-133 | from there the relays and the exit alone finish with all that was sent before |
| `Lines.LineIsLog` | services/relay-node/src/circuit/exit.rs:116-133 | in step, the digests and lengths on the wires are, in order, those of the cells sealed and not yet arrived |
| `Overtaking.WriteKeepsSyncIff` | services/relay-node/src/circuit/exit.rs:281-303 | a stream task's DATA or END leaves the backward line in step if and only if no reply waits to be written, or the cell is that reply itself |
| `Overtaking.TaskKeepsSyncIff` | services/relay-node/src/circuit/exit.rs:206-221 | the same for both turns of a task in the network, with the guard readable before the write |
| `Overtaking.OvertakingClosesClient` | services/tor-client/src/core/circuit.rs:702-715 | in every run after a task overtook a reply, neither the reply nor anything after it is ever delivered, and when all that came before is read the next cell closes the client's circuit, as long as what it compares does not collide |
| `Witness.TaskMeetsReply` | services/relay-node/src/circuit/exit.rs:511-524 | on every circuit there is a run from the start to a state with a reply waiting and a live task with bytes to send |
| `Witness.OvertakingHappens` | services/relay-node/src/circuit/exit.rs:511-524 | and one step further the backward line is out of step, whatever hash and ciphers |
| `Pipes.PipedStep` | services/tor-client/src/core/stream.rs:113-187 | every action keeps every stream in order, if no id is handed out before the stream that held it is over |
| `Pipes.PipedRun` | services/tor-client/src/core/stream.rs:113-187 | so does every run with that guard, however many streams it opens |
| `Pipes.FewStreamsSpareIds` | services/tor-client/src/core/circuit.rs:50-57 | the guard holds in every run with at most 65535 streams |
| `Reuse.ReusedIdMisleads` | services/tor-client/src/core/circuit.rs:50-57 | the guard is needed: on every circuit there is a run in which all ids were used once, the next stream gets the id of one still served, and a live task has handed out bytes that the new stream never sent |
| `Hearing.TruthfulRun` | services/tor-client/src/core/circuit.rs:697-715 | in every run the client has accepted a prefix of what the exit sealed: without condition until a cell overtakes a reply, and from then on as long as what it compares does not collide |
| `Hearing.UnracedHearsClearly` | services/tor-client/src/core/circuit.rs:697-715 | a run in which nothing overtook a reply meets that condition |
| `Pipes.DestinationGetsPrefix` | services/relay-node/src/circuit/exit.rs:345-351 | for every interleaving of streams, what a destination was or is about to be handed is a prefix of what its SOCKS client sent, through chunks, digest, layers, peels and demultiplexing |
| `Pipes.EarlyTasksAreCurrent` | services/relay-node/src/circuit/exit.rs:175-191 | with at most 65535 streams that covers every task there ever was |
| `Ledger.ServedIffOpen` | services/relay-node/src/circuit/exit.rs:368-525 | in every state of every run the exit serves a stream if and only if a BEGIN of it was accepted and connected and no END of it was accepted since, and then with the last such BEGIN's task |
| `Ledger.BookedStep` | services/relay-node/src/circuit/exit.rs:368-525 | every action keeps that |
| `Ledger.LiveIffUnstopped` | services/relay-node/src/circuit/exit.rs:240-360 | a task is at work exactly until its destination closed or failed or its channel closed, whatever the exit does for other streams meanwhile |
| `Ledger.EveryCellIsAnswered` | services/relay-node/src/circuit/exit.rs:368-525 | DATA for an open stream at work goes to its task and no other; for a stopped or unknown stream it is answered by an END that says which; BEGIN is answered by CONNECTED or by an END with the reason, END by an END |
| `Ledger.OpenStreamGetsAll` | services/relay-node/src/circuit/exit.rs:399-425 | once the wires are drained: if the stream was connected, not ended since and not stopped by its destination, that was handed all that was read and is no longer pending |
| `Pipes.DestinationIsAsked` | services/relay-node/src/circuit/exit.rs:135-144 | the exit dials for a stream exactly the destination its client asked for, of which it cuts off zeros at the end and nothing else |
| `Pipes.TrimNulsExactly` | services/relay-node/src/circuit/exit.rs:135-137 | exactly the zeros at the end are cut off |
| `Pipes.DestinationGetsAll` | services/relay-node/src/circuit/exit.rs:399-425 | once the wires are drained, the destination of a served stream was handed all that was read, up to what is still pending at the client |
| `Pipes.ChannelGetsPrefix` | services/tor-client/src/core/circuit.rs:734-746 | a stream's channel was given a prefix of the cells the exit sealed for it since it was opened, and no DATA before its CONNECTED |
| `Pipes.SocksGetsPrefix` | services/tor-client/src/core/stream.rs:162-169 | what the SOCKS client was handed is a prefix of what the exit read from its destination |
| `Pipes.RelaysOnlyConnected` | services/tor-client/src/core/stream.rs:59-111 | a stream relays, and so sends DATA, only if the exit did connect to its destination and no END was taken off its channel, and it has written all that it took off |
| `Pipes.SocksGetsAll` | services/tor-client/src/core/stream.rs:162-169 | once wires and channel are drained it was handed all of it, up to what the exit still holds |
| `Draining.DrainUp` | services/relay-node/src/circuit/exit.rs:116-133 | nothing gets stuck: from every state of every run, whatever the destinations answer, the relays and the exit alone bring the exit all that was ever sent |
| `Draining.DrainDown` | services/tor-client/src/core/circuit.rs:661-747 | and the relays and the reader alone bring an open client all that was ever sealed, if nothing overtook a reply and no DESTROY comes first |
| `Draining.ChannelGetsAll` | services/tor-client/src/core/circuit.rs:734-746 | with nothing on the way, a registered channel was given every cell of its stream |
| `Draining.EverythingArrives` | services/tor-client/src/core/stream.rs:113-187 | so from every such state there is a run of deliveries after which the destination of every stream that was connected, not ended and not stopped was handed, or is about to be, all that was read and is no longer pending, and registered channels have every cell |
| `Draining.QueueIsHandedOver` | services/relay-node/src/circuit/exit.rs:345-351 | and what is about to be handed over can be: a task may write all of its queue |
| `Pipes.IdsRunOut` | services/tor-client/src/core/circuit.rs:50-61 | over runs of any length ids go round from 1 to 65535: the next one belongs to an earlier stream exactly from the 65536th on, and differs from those of the 65534 streams before |
| `Streams.SendingSends` | services/tor-client/src/core/stream.rs:44-50 | BEGIN is the first cell of its stream and DATA cells plus what is pending make up what was read |
| `Streams.ServingQueues` | services/relay-node/src/circuit/exit.rs:399-425 | an accepted DATA cell leaves every task with a prefix of its stream's bytes, a live registered one with exactly all |
| `Streams.ServingConnects` | services/relay-node/src/circuit/exit.rs:144-191 | a new task starts with a stream none of whose cells came before |
| `Streams.EmittingChunk` | services/relay-node/src/circuit/exit.rs:281-303 | DATA cells of a stream plus what its task still holds make up what was read from the destination, and come after CONNECTED |
| `Streams.ReceivingDelivers` | services/tor-client/src/core/circuit.rs:734-746 | a registered stream's channel holds every cell of the stream, any other a prefix |
| `Ledger.EnlistedRun` | services/tor-client/src/core/circuit.rs:734-746 | in every state of every run, while the circuit is open, the streams whose cells are passed on are exactly those opened whose handlers are not through |
| `Streams.ReceivedTakes` | services/tor-client/src/core/stream.rs:59-92 | what is written to the SOCKS client follows what was taken off the channel, cell by cell |
| `Chunking.ChunksJoin` | services/tor-client/src/core/stream.rs:128-135 | chunks put together are the read, none is empty or over 497 bytes and all but the last are full |
| `Chunking.OpenStream` | services/tor-client/src/core/stream.rs:30-50 | a new stream gets the next id and its channel before BEGIN is sealed; BEGIN fits exactly if the destination is under 497 bytes |
| `Chunking.CleanUp` | services/tor-client/src/core/stream.rs:199-221 | END is sealed, then the channel goes |
| `Chunking.OpeningIsRun` | services/tor-client/src/core/stream.rs:30-50 | opening is two steps of the network |
| `Chunking.CleaningUpIsRun` | services/tor-client/src/core/stream.rs:199-221 | and so is cleaning up |
| `Chunking.SendRead` | services/tor-client/src/core/stream.rs:124-138 | the chunk loop never fails to fit and leaves exactly the circuit and the cells of sealing one chunk after the other |
| `Chunking.ChunkLoopIsRun` | services/tor-client/src/core/stream.rs:124-138 | the loop is a run of the network of as many steps as chunks, after which nothing is pending |
| `Chunking.DrainOutbox` | services/relay-node/src/circuit/exit.rs:281-303 | the exit's chunk loop seals and writes everything it read, in order |
| `Chunking.EmitAllEmpties` | services/relay-node/src/circuit/exit.rs:281-303 | as few cells as possible, all of the stream and all fitting, and nothing left over |
| `Handshake.NtorAgreement` | services/common/src/crypto.rs:388-466 | with commuting DH the client accepts exactly the tag the holder of the static key sends for these ephemeral keys, and then both hold the same session key; `Handshake.KeyBinds` says what that key depends on |
| `Handshake.NtorBinds` | services/common/src/crypto.rs:430-466 | if the client accepts a reply, whoever made it made it under the static key asked for and for this client's key, and holds the same session key, unless the compared tags collide |
| `Handshake.KeyBinds` | services/common/src/crypto.rs:328-435 | two handshakes give one session key only if both shared points and all three public keys are the same, unless the seeds or the key material compared collide |
| `Handshake.FinishBinds` | services/common/src/crypto.rs:430-466 | a relay holds the key a client finished with only if it has the client's two points, with the ephemeral key the client was sent and with the static key it asked for, again unless these collide |
| `Handshake.KeyIsMaterial` | services/common/src/crypto.rs:328-335 | a session key is all 32 bytes of its key material, 16 each way |
| `Handshake.LabelsDiffer` | services/common/src/crypto.rs:266-283 | the four uses of HMAC are under four different keys |
| `ExtendCodec.FirstZero` | services/relay-node/src/circuit/entry.rs:98-101 | the position of the first zero byte, or none if there is none |
| `ExtendCodec.ParsePrint` | services/relay-node/src/circuit/entry.rs:94-133 | a relay reads back exactly what the client printed, even with zeros in the key, if and only if the address has no zero byte and the texts are well formed |
| `ExtendCodec.PrintParse` | services/relay-node/src/circuit/middle.rs:86-125 | every payload a relay accepts is exactly the print of what it read |
| `ExtendCodec.ParsesIff` | services/relay-node/src/circuit/middle.rs:86-127 | a payload is accepted if and only if it is the print of a well-formed request |
| `ExtendCodec.PrintInjective` | services/tor-client/src/core/circuit.rs:279-285 | two requests never print alike |
| `Telescope.AcceptCreate` | services/relay-node/src/circuit/entry.rs:43-77 | CREATE: the relay agrees on a key, activates fresh ciphers and answers with its ephemeral key and tag |
| `Telescope.PeelExtend` | services/relay-node/src/circuit/middle.rs:77-127 | EXTEND up to the dial: one layer comes off and the payload is read as `Parse` says |
| `Telescope.WrapExtended` | services/relay-node/src/circuit/middle.rs:167-204 | EXTEND from the answer on: CREATED is checked, the next hop set and the payload sent back under one layer |
| `Telescope.TipReads` | services/relay-node/src/circuit/entry.rs:91-92 | the last hop so far recovers exactly what the client wrapped for it |
| `Telescope.ClientReads` | services/tor-client/src/core/circuit.rs:315-319 | the client recovers exactly the CREATED payload that the last hop passed back |
| `Telescope.CreateAgrees` | services/tor-client/src/core/circuit.rs:230-263 | the CREATED payload makes the client agree on the relay's key |
| `Telescope.TipAnswers` | services/relay-node/src/circuit/middle.rs:71-205 | the last hop parses exactly the client's address, key and fingerprint, dials that node and passes its answer back |
| `Telescope.ExtendLinks` | services/tor-client/src/core/circuit.rs:269-353 | one extension succeeds exactly when its payload fits, and leaves one more hop, the agreed key at both of its ends and all positions equal again |
| `Telescope.ExtendBinds` | services/tor-client/src/core/circuit.rs:269-353 | one extension, whoever answers: if it succeeds, the node is who the directory says, both ends hold one key and all positions are equal again |
| `Telescope.CreateBinds` | services/tor-client/src/core/circuit.rs:230-263 | the client accepts an answer only from the node it asked for, and then both hold the same key |
| `Telescope.FinishAccepts` | services/tor-client/src/core/circuit.rs:341-349 | the client accepts an answer exactly if its second half is the tag that it computes for itself |
| `Telescope.Build` | services/tor-client/src/core/circuit.rs:117-198 | whenever the build succeeds, with nothing known of DH or of who answers where, every hop has the fingerprint and holds the secret of the key that the directory lists, and the client's key for it at a position that is exactly the bytes of all later EXTENDs and answers, unless tags collide; with a true directory it succeeds if and only if the path has three hops and all payloads fit |
| `Telescope.ChainStartsNetwork` | services/tor-client/src/core/circuit.rs:176-197 | the finished chain is the start state of the network, with fresh and equal digests |
| `Connection.HandleConnection` | services/relay-node/src/main.rs:336-517 | the connection loop of any relay handles message after message, each reply written before the next is read, and ends at the first error; what it does and keeps is what the network does (`Service.RelayServes`, `Service.ExitServes`) |
| `Service.RelayServes` | services/relay-node/src/main.rs:336-517 | serving all that waits on the wire to an entry or middle relay is a run of that many `RelayUp` steps of the network: the circuit left in the table is the relay of the network after it, and the cells passed on are those on the next wire |
| `Service.ExitServes` | services/relay-node/src/main.rs:336-517 | the same at an exit, whatever the destinations answer: a run of `ExitTake` and `WriteReply` |
| `Service.CreateIsKept` | services/relay-node/src/circuit/handler.rs:154-168 | after CREATE the table holds the circuit under exactly the key that the client makes of the answer |
| `Service.ExtendIsKept` | services/relay-node/src/main.rs:444-461 | after EXTEND the circuit has a next hop and one reader on it, its keystreams moved on by request and answer, and the client gets the agreed key from the answer |
| `Service.DestroyIsKept` | services/relay-node/src/circuit/handler.rs:154-168 | after DESTROY the circuit has neither keys nor streams, and the next enciphered cell ends the connection |
| `Connection.NextHopIsRead` | services/relay-node/src/main.rs:444-461 | a relay that gets a next hop starts its reader in the same turn, after the reply is out, and only once |
| `Connection.ErrorStops` | services/relay-node/src/main.rs:490-497 | nothing after the first error is looked at |
| `Connection.DispatchIsLocal` | services/relay-node/src/circuit/handler.rs:154-168 | a message touches and answers only for the circuit it names, and what comes of it depends on that circuit only |
| `Connection.OnlyCreateMakes` | services/relay-node/src/circuit/handler.rs:154-168 | only CREATE makes a circuit, nothing takes one out of the table, and a message for one that is not there is an error |
| `Connection.CircuitsAreIsolated` | services/relay-node/src/circuit/handler.rs:154-168 | circuits with different ids on one connection do not disturb each other: each ends, and is answered, as if its messages were the only ones |
| `Tamper.OnlyTheNext` | services/common/src/crypto.rs:81-91 | after k cells in order, a transcript of a sent cell with the same payload length is that of the next cell |
| `Tamper.RelaysKeepCopies` | services/relay-node/src/circuit/middle.rs:241-291 | relays keep the digest and the payload length of whatever they pass on |
| `Tamper.SealIsCopied` | services/tor-client/src/core/circuit.rs:74-82 | a cell just sealed carries the digest and the length of the cell it seals |
| `Tamper.ExitAcceptsPrefix` | services/relay-node/src/circuit/exit.rs:380-397 | however cells are lost, repeated, reordered or changed in place (all but their digest and length fields), what the exit accepts until it stops is a prefix of what the client sent, unless the snapshots compared collide |
| `Tamper.ClientAcceptsPrefix` | services/tor-client/src/core/circuit.rs:702-715 | the same for what the client accepts of the exit's cells, digest and length fields again unchanged |
| `Tamper.FramesRunTogether` | services/common/src/crypto.rs:81-85 | the digest has no length field: two cells absorb the same as one longer cell |
| `Tamper.LengthsMatter` | services/relay-node/src/circuit/exit.rs:380-397 | so the payload lengths are needed: for any two cells that fit in one together, that one merged cell is accepted in place of both |
| `Tamper.DigestsMatter` | services/relay-node/src/circuit/exit.rs:380-397 | and so are the digest fields: after any number of cells in order, any other payload of the right length is accepted with a digest made for it |
| `Registry.HistoryIsSound` | services/discovery/src/core/registry.rs:89-111 | over every run of register, heartbeat, remove and cleanup each key is its node's id, socket addresses differ, and no node was last seen before it registered |
| `Registry.RegisteredExactly` | services/discovery/src/core/registry.rs:89-111 | registering changes this node, drops whoever had its address and leaves all else; a known node keeps first registration and metrics |
| `Registry.HeartbeatExactly` | services/discovery/src/core/registry.rs:288-313 | a heartbeat sets this node's time, and its metrics if it brings any, and leaves all else |
| `Registry.RemoveExactly` | services/discovery/src/core/registry.rs:315-322 | removing takes out exactly one node, if it is there |
| `Registry.CleanupExactly` | services/discovery/src/core/registry.rs:324-341 | cleanup removes exactly the stale entries and returns their number |
| `Registry.SignOfLifeLasts` | services/discovery/src/core/registry.rs:288-341 | a node that registers or sends a heartbeat survives a later cleanup if and only if no more than the timeout has passed |
| `Registry.SelectWeightedIndex` | services/discovery/src/core/registry.rs:260-286 | the loop returns the index whose stretch of the running total the draw hits; it never subtracts below zero nor reaches its fallback |
| `Registry.DrawIsProportional` | services/discovery/src/core/registry.rs:260-286 | exactly bandwidth[i] draws return i, for every i, if and only if the total fits in 64 bits |
| `Registry.ZeroIsNeverDrawn` | services/discovery/src/core/registry.rs:260-286 | a node without bandwidth is never drawn while the total is positive |
| `Registry.HitsOne` | services/discovery/src/core/registry.rs:276-283 | no draw hits two nodes |
| `PathChoice.NodeRegistry.RegisterNode` | services/discovery/src/core/registry.rs:89-111 | eviction, then insertion or update, is the step `Registered` |
| `PathChoice.NodeRegistry.UpdateHeartbeat` | services/discovery/src/core/registry.rs:288-313 | with or without metrics; an unknown node is an error and changes nothing |
| `PathChoice.NodeRegistry.RemoveNode` | services/discovery/src/core/registry.rs:315-322 | removes the node, or reports that it is not there |
| `PathChoice.NodeRegistry.CleanupStaleNodes` | services/discovery/src/core/registry.rs:324-341 | returns exactly the number of stale entries, which are the ones that go |
| `PathChoice.NodeRegistry.GetNodesByType` | services/discovery/src/core/registry.rs:124-130 | exactly the registered nodes of the type, each once |
| `PathChoice.NodeRegistry.PickEnds` | services/discovery/src/core/registry.rs:178-207 | exit and entry are compatible, or the error names a real conflict |
| `PathChoice.NodeRegistry.PickMiddles` | services/discovery/src/core/registry.rs:214-242 | the middles are distinct and compatible with everything, or the partial path has no legal completion |
| `PathChoice.NodeRegistry.GetRandomPath` | services/discovery/src/core/registry.rs:134-246 | whatever is drawn, a path has exactly `count` hops: entry, middles, exit, with distinct ids, no shared operator and, unless allowed, no shared non-loopback IP; a failure at a middle slot means no legal completion; and where no two nodes conflict it succeeds if and only if there are enough nodes; and exit, entry and each middle are the nodes that the weighted draws fall on, a middle among exactly those still left |
| `PathChoice.DrawnPathsAreGoodPaths` | services/discovery/src/core/registry.rs:134-246 | where every node has bandwidth and no total overflows, the paths that some draws lead to are exactly the good ones, however the nodes are listed |
| `PathChoice.PathIsDrawn` | services/discovery/src/core/registry.rs:134-246 | hop by hop, a path is what the draws fall on in the running total of bandwidths: the exit among all exits, the entry among all entries, each middle among those left once exit, entry and the middles before it are picked |
| `PathChoice.PickIsWeighted` | services/discovery/src/core/registry.rs:260-286 | a draw picks a node exactly if it falls into its stretch of the running total, or, with no bandwidth at all, is its index |
| `PathChoice.PickIsProportional` | services/discovery/src/core/registry.rs:260-286 | exactly bandwidth[i] draws pick node i, for every i, if and only if the total does not overflow |
| `PathChoice.HopsShareNothing` | services/discovery/src/core/registry.rs:170-215 | no two hops of a path share id or operator, nor, unless allowed, an IP outside 127.0.0.0/8 and ::1 |
| `PathChoice.ConflictIff` | services/discovery/src/core/registry.rs:170-225 | two nodes are in conflict exactly if they name one operator, or have one IP where that is not allowed and it is no loopback |
| `PathChoice.MiddlesAreRight` | services/discovery/src/core/registry.rs:214-242 | whatever is drawn at the middle slots, the result is legal, or the partial path has no legal completion of that length |
| `PathChoice.RetainLeavesCandidates` | services/discovery/src/core/registry.rs:215-225 | the filter leaves exactly the unpicked middles compatible with everything committed |
| `PathChoice.NoCompletion` | services/discovery/src/core/registry.rs:226-232 | with fewer of those than slots, no choice of middles completes the path |
| `PathChoice.PathAddressesDiffer` | services/discovery/src/core/registry.rs:94-95 | no two hops of a path have the same socket address, even where hops may share an IP |
| `Pool.RunIsTended` | services/tor-client/src/core/circuit.rs:520-558 | in every run Ready circuits keep an age record, slots at their budget are abandoned and stay so |
| `Pool.PoolIsTended` | services/tor-client/src/core/circuit.rs:383-398 | and every pool starts so |
| `Pool.ExpireLeavesNoneAged` | services/tor-client/src/core/circuit.rs:414-439 | after expiry exactly the Ready circuits under the age limit are still Ready, and nothing else changed |
| `Pool.ServesUntilAged` | services/tor-client/src/core/circuit.rs:414-439 | over any run a circuit is Ready from when it was built exactly until it is replaced, dropped or closed, or an expiry finds it at the age limit |
| `Pool.BudgetIsExact` | services/tor-client/src/core/circuit.rs:534-555 | a slot is abandoned if and only if it at some time failed as often in a row as the budget allows |
| `Pool.ReplacedExactly` | services/tor-client/src/core/circuit.rs:520-576 | a replacement removes the failed circuit in any case, adds exactly one Ready circuit if it succeeds, counts one failure if not, and concerns no other circuit or slot |
| `Pool.RunMovesOn` | services/tor-client/src/core/circuit.rs:664-753 | a circuit only moves Ready, Dirty, Closed, and one that left the pool never comes back |
| `Pool.SecondFailureNeedsAbsence` | services/tor-client/src/core/circuit.rs:520-558 | a failed replacement has already removed its id, so a slot fails a second time only if an id is replaced that is no longer in the pool |
| `Pool.ProductFitsIff` | services/tor-client/src/core/circuit.rs:857 | the backoff product fits in 64 bits if and only if there were at most 61 failures |
| `Pool.BackoffIntendedIff` | services/tor-client/src/core/circuit.rs:857 | the wait is the intended one if and only if there were fewer than 64 failures or the low six bits make at least 4 |
| `Pool.BackoffIsSafe` | services/tor-client/src/core/circuit.rs:841-858 | if nothing is replaced between the two looks of the monitor: with a budget of at most 62, a slot that is not abandoned waits 5 to 60 seconds, never less after one more failure, without overflow |
| `Pool.LateFailures` | services/tor-client/src/core/circuit.rs:841-858 | in general the abandoned slots and the failure count are read under two locks: whatever was done in between, the product fits if and only if the streak is at most 61, which the budget plus the failures in between being at most 62 ensures |
| `Pool.LateFailuresOverflow` | services/tor-client/src/core/circuit.rs:841-858 | and no more than that: for every budget up to 62 there is a slot that is not abandoned at the first look and overflows with one failure more in between |
| `Pool.CircuitPool.ExpireAgedCircuits` | services/tor-client/src/core/circuit.rs:414-439 | the loop marks exactly the aged Ready circuits Dirty, drops their records and returns their ids |
| `Pool.CircuitPool.BuildCircuit` | services/tor-client/src/core/circuit.rs:578-624 | spends an id in any case; on success the circuit is Ready with its age recorded |
| `Pool.CircuitPool.ReplaceCircuit` | services/tor-client/src/core/circuit.rs:520-576 | the failed circuit goes first; success clears its failures, failure counts one and may abandon the slot |
| `Pool.CircuitPool.SelectCircuit` | services/tor-client/src/core/circuit.rs:478-512 | a Ready circuit with the fewest streams if there is one, else a newly built one |

## Left out

- TLS, TCP, timeouts, task scheduling, gRPC and SOCKS5 parsing: wires are sequences, locks are atomic steps, clocks, draws and outside choices are parameters.
- AES, SHA-256, HMAC, X25519, UTF-8 and socket address parsing: foreign code, abstract functions here.
- A write that fails half way through a cell: a lost connection is a DESTROY on a wire or `LoseEntry`; relays that fall silent are runs in which their steps do not happen.
- DESTROY may be injected on any backward wire at any time, which allows more than relays do; after a cell that would stop a relay or the exit, that party's steps are simply not enabled.
- Clients that share a circuit id at one relay: ids are assumed distinct there, as is that no relay occurs twice in a path. A CREATE for an id in use replaces the handler in `Connection`.
- Of an exit's connection the network follows one circuit; the order of its loop (a reply is written before the next message is read) is the guard on `ExitTake`. The table of circuits in `Connection` is a map of values; that each handler object does what its value does is `HandleAtRelay` and `HandleAtExit`.
- A task's control channel and its write to the destination are one byte queue; how the bytes are split into writes is not modelled, nor when exactly a task notices that its channel closed because the stream was forgotten: that is a `TaskWrite` that ends the task, at any time.
- The texts of connection and read errors are parameters that fit in a cell; a longer one would break the circuit as `Limits.SendKeepsSyncIffFits` says of the client.
- A destination is shorter than 497 bytes, as SOCKS5 host names with a port are.
- The role of a hop follows from its place in the path, as the directory's paths guarantee; a node of another role at that address is not modelled.
- Pipes.PipedRun: claims nothing of runs that hand out an id while the stream that held it before still has a handler, a task or a cell on the way, because the two streams then share one id.
- Pipes.ChannelGetsPrefix: like every theorem on what the client received, supposes that what it compares after a cell overtook a reply does not collide with what the exit sealed, because a 4-byte snapshot cannot be injective; nothing is supposed before.
- Tamper.ExitAcceptsPrefix: supposes that the transcripts compared do not collide, for the same reason, and that digest and length fields were not changed; the claim is false without either (`Tamper.LengthsMatter`, `Tamper.DigestsMatter`). The same for `Tamper.ClientAcceptsPrefix`.
- Pool.RunMovesOn: claims nothing once all 32-bit circuit ids are used up, because they wrap around onto circuits that may still be there.
- Telescope.Build: with a false directory it says what a success proves, supposing that addresses print without zero bytes and that the tags compared do not collide; that somebody without the listed secret could not compute a tag is a claim about DH and HMAC that is not made.
- The directory's HTTP handlers, persistence, `get_stats` and `is_ready`; public keys and fingerprints in its descriptors: no choice depends on them.
- `HashMap` order and the random generator: every order and every draw is allowed. `DrawnPathsAreGoodPaths` leaves open which good paths can still be drawn where a node has no bandwidth or a total overflows.
- The pool holds what it sees of a circuit (status and number of streams) as values; the circuits themselves are shared objects that only module `Client` models.
- The monitor's and the keepalive's timers, and pool size, which the code does not conserve.
- `ExitPolicy`, protobuf conversions, hex keys, metrics, the terminal and web interfaces and the wizards: display, or easy members.
