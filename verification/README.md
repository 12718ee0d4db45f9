# Verified model of the tunnel server and client

Tunlit exposes a local service through a server. This project models the parts of it whose
correctness depends on state, order or arithmetic, and proves what they promise. `dafny
verify dfyconfig.toml` checks everything.

**Multiplexer.** One WebSocket carries many flow-controlled byte streams. `ServerSpec` and
`ClientSpec` give the two ends (Node server, Rust client) as functions on values; `Link`
puts them together with the channels between them and lets any event of any stream happen
at any time. `LinkInvariant`, `LinkArrivals`, `LinkClient`, `LinkDelivery` and `LinkRun`
show what every event keeps, stream by stream; `Direction` is the bookkeeping of one
direction of one stream. `LinkTheorems`, `DrainScheduler` and `Resets` state the results on
reachable states: credit conservation, no starvation, byte fidelity, no lost wake-up, the
life of ids, streams and resets. `LinkProgress` proves that everything written, CLOSE and
RESET included, can always reach a client that keeps reading, `LinkUpward` the same towards
the server. `LinkEffects` says of each single operation which frames it puts on the wire and
when, in the protocol's terms, and `LinkWire` that every frame under way survives the trip
through bytes. `MuxServer` and `MuxClient` are the objects with their
fields, each method proved to do to the state exactly what the specification says.
DATA and CLOSE (and everything the server sends) travel in order. What the client hands to
spawned tasks (WINDOW_UPDATE, RESET) may arrive in any order: the event that delivers such a
frame names its position freely.

**WebSocket codec** (sections 5.2 to 5.4 of RFC 6455): `WebSocketSpec`, `WebSocketTheorems`,
`WebSocketCodec`, over `Bits` and `Search`; `WebSocketWire` says what the bytes of a frame
mean, position by position, with the examples of section 5.7. **Frame header**: `FrameCodec`.
**Streaming injection**: `Injection`. **Traffic shaper**: `Shaper`, with time as a real
number and every random draw an input. **Address lists and rules**: `RangeIndex`,
`AccessRules`.

**Tunnel registry.** `RegistrySpec` is the state machine of names, tunnel objects,
sessions, close callbacks and grace timers; `RegistryInvariant` what every event keeps;
`RegistryTheorems`, `RegistryRemoval` and `RegistryReplacement` the results over whole runs,
`RegistryStale` where they end, `RegistryJoiners` who is told; `TunnelRegistry` the class with its fields.

**Byte accounting.** `Usage` follows traffic from session counters through the sampler and
the pending map to the stored usage; `UsageTheorems` proves conservation, `UsageStored` that
without a failing store everything counted ends up in the table; `Metering` holds
the `Stats` and `Quotas` classes.

Assumptions taken from the code around the core, each written into the guard of an event:

- A session is open when the registry attaches it. `RegistryStale.AttachNeedsOpen` shows
  that this is exactly what the invariant needs, and `RegistryStale.StuckStays` what becomes
  of a tunnel whose session was closed.
- A registration is one step; its awaits do not interleave with another registration of the
  same name.
- A session registers at most once (server/controllers/control.js:62-66) and a tunnel is
  resumed only under its own account (server/lib/registry.js:98-100). Byte accounting rests
  on it: `UsageTheorems.SharedSessionCountedTwice`.
- Each end opens fewer than 2^31 streams, so ids do not wrap.
- A client stream is written as the pump writes it: sends one after the other, then at most
  one close (cli/src/tcp.rs:17-26).

Four properties fail for some inputs of the code as it is, and the model says exactly when:

- "No RESET after a clean close in both directions" fails at the client for a call of
  reset(), which looks at `dead` alone. `Resets.ClientResets` says that this call, on a stream
  neither dead nor dropped, is the only step that emits one; `Resets.ResetAfterCleanClose` is
  a reachable state in which it does. The client itself resets only streams it has not closed.
- The binary search of an address list can miss a listed address when a shorter prefix
  contains longer ones: `RangeIndex.NestedPrefixMissed`. `RangeIndex.ListSearch` gives the
  condition on the list under which search and scan agree, in both directions.
- The unsigned-shift prefix test compares whole addresses for the empty prefix
  (`AccessRules.PrefixFormsAgree`); no entry of the private list has one.
- A tunnel removed while a session still serves it leaves that session's close callback
  behind, and the callback acts on the name, not on the tunnel. Without a grace period the
  close takes a later tunnel of that name out of the table (`RegistryStale.StaleReachable`);
  with one it arms a timer that does (`RegistryStale.StaleTimerReachable`).
  `RegistryRemoval.StepStale` shows that this one kind of removal is the only step that
  leaves anything behind, and `RegistryRemoval.RemovalHasCause` says exactly when a name
  leaves the table.

## Model

| member | source | states |
|---|---|---|
| LinkTheorems.DownCreditConserved | server/lib/MuxSession.js:56-68 | In every reachable state, for server-to-client DATA: send window, DATA in flight, bytes the client holds uncredited and WINDOW_UPDATE amounts in flight sum to exactly 1 MiB while both sides are alive, to at most 1 MiB afterwards; the window is never negative |
| LinkTheorems.UpCreditConserved | cli/src/mux.rs:60-78 | The same conservation law for client-to-server DATA, with the server's pendingUpdate as the uncredited part |
| LinkTheorems.WithinBounds | cli/src/mux.rs:130-144 | The client's unbounded receive queue never holds more than 1 MiB of DATA, and neither its u32 counter nor any WINDOW_UPDATE amount on the wire can overflow |
| LinkTheorems.DownNeverStarves | cli/src/mux.rs:138-144 | When the client reader waits on an empty queue and nothing is under way, the server's window exceeds 1 MiB - 256 KiB, and a flush with queued bytes and a free socket does put DATA on the wire |
| LinkTheorems.UpNeverStarves | server/lib/MuxSession.js:34-42 | When the server has credited all it got and nothing is under way, the client has its whole window and its next chunk goes out |
| LinkTheorems.DownFidelity | server/lib/MuxSession.js:44-91 | For every interleaving of any number of streams, what the client took from a stream is a prefix of what the server side wrote to it, and all of it once the client saw CLOSE |
| LinkTheorems.UpFidelity | cli/src/mux.rs:103-122 | The same for bytes sent by the client and handed to the server side |
| LinkTheorems.FreshIds | server/lib/MuxSession.js:216-224 | The next id of either end is unknown to both ends and to every channel, and the two ends' next ids differ |
| LinkTheorems.TableIsUnfinished | server/lib/MuxSession.js:111-116 | The server's stream table holds an id exactly while that stream is unfinished |
| LinkTheorems.OpenIsNew | server/lib/MuxSession.js:251-261 | An OPEN never reaches an end that already knows the stream |
| LinkTheorems.NoLostWakeup | server/lib/MuxSession.js:183-202 | In an open session every unfinished stream with queued writes waits for a drain, and whenever one waits the drain timer is armed |
| LinkProgress.EverythingArrives | server/lib/MuxSession.js:56-78 | From every reachable state with the connection up, the server stream unfinished and the client reading, a finite schedule of arriving frames, reads and drain ticks alone brings the client everything the server side was given, and CLOSE if it ended |
| LinkProgress.DrainShrinks | server/lib/MuxSession.js:195-202 | When the client has taken all it got and its credits are back, a drain tick puts a queued piece on the wire |
| LinkProgress.NoResetOnWire | server/lib/MuxSession.js:93-102 | While the server has emitted no RESET for a stream, none of it is in its channel |
| LinkProgress.OffTableIsDead | cli/src/mux.rs:149-152 | A client stream that left the table is dead or dropped, so the end of its channel changes nothing |
| LinkProgress.ResetArrives | cli/src/mux.rs:243-247 | A RESET anywhere in the channel reaches the client by arrivals alone, and leaves its stream off the table and dead or dropped |
| LinkProgress.DestroyReachesClient | server/lib/MuxSession.js:93-102 | A stream destroyed while neither finished, reset nor closed both ways, on an open session, is over at the client after finitely many arrivals |
| LinkProgress.DropReachesServer | cli/src/mux.rs:89-97 | A client stream dropped while neither dead nor closed both ways is finished at the server when its RESET arrives |
| LinkUpward.EverythingServed | cli/src/mux.rs:105-111 | From every reachable state with the connection up, the client stream alive and the server stream unfinished, a finite schedule of arriving frames, reads at the server and pending chunks hands the server side everything the client was given, and CLOSE if it closed |
| LinkUpward.CloseArrives | cli/src/mux.rs:119-122 | With a call of close() in between, the schedule also makes the server see CLOSE, after all the bytes |
| LinkEffects.ServerOpens | server/lib/MuxSession.js:216-224 | A new stream under the next id with a whole window, announced by OPEN on an open socket |
| LinkEffects.ClientOpens | cli/src/mux.rs:276-282 | The same at the client, under the next odd id |
| LinkEffects.WriteCalled | server/lib/MuxSession.js:44-54 | Everything written is accepted unless the stream is finished or ended |
| LinkEffects.FinalCalled | server/lib/MuxSession.js:80-91 | With nothing queued CLOSE goes out at once, and only the first time |
| LinkEffects.ReadCalled | server/lib/MuxSession.js:34-42 | What is owed goes out in one WINDOW_UPDATE if and only if it is positive and the stream neither finished nor closed by the client; nothing else changes |
| LinkEffects.ReadGrants | server/lib/MuxSession.js:34-42 | On an open session a read leaves nothing owed, and what is granted in the channel grows by what was |
| LinkEffects.DestroyCalled | server/lib/MuxSession.js:93-102 | RESET goes out if and only if the stream is neither finished, reset nor closed both ways and the session is open; the stream is finished, off the table, and its queue dropped |
| LinkEffects.ServerDatagramCalled | server/lib/MuxSession.js:104-109 | One DATAGRAM with the data if and only if the stream is unfinished, the data short enough, there is room and the session open |
| LinkEffects.SendCalled | cli/src/mux.rs:105-106 | A send accepts its data whole, as chunks that concatenate to it |
| LinkEffects.PieceCalled | cli/src/mux.rs:66-109 | A chunk goes out if and only if the stream lives, the credit covers it and the connection is open; the credit falls by exactly its length |
| LinkEffects.CloseCalled | cli/src/mux.rs:119-122 | CLOSE goes out if and only if the stream is not dead, dropped or closed before and its sends are over, on an open connection; nothing waits for the server |
| LinkEffects.ClientDatagramCalled | cli/src/mux.rs:113-117 | One DATAGRAM with the data if and only if the stream lives and the data is short enough, while connected |
| LinkEffects.DropCalled | cli/src/mux.rs:89-97 | RESET is handed out if and only if the stream is neither dead nor closed both ways and the connection open; the stream leaves the table |
| LinkEffects.RecvCalled | cli/src/mux.rs:131-139 | 256 KiB or more of consumed bytes are granted in one WINDOW_UPDATE before recv() waits, unless the stream is dead; less is kept |
| LinkEffects.RecvReturns | cli/src/mux.rs:140-154 | recv() returns the oldest item; its bytes count as consumed, CLOSE and RESET are noted, and no frame goes out |
| LinkEffects.DataAtServer | server/lib/MuxSession.js:118-122 | DATA is pushed and owed in full if the stream is known, unfinished and not closed by the client, and changes nothing otherwise |
| LinkEffects.CloseAtServer | server/lib/MuxSession.js:124-129 | CLOSE is noted, and finishes the stream exactly when the server had closed too |
| LinkEffects.ResetAtServer | server/lib/MuxSession.js:131-134 | RESET finishes the stream and drops its queue, and no frame answers it |
| LinkEffects.FrameAtClient | cli/src/mux.rs:239-254 | Each kind of frame for a stream of the table: what joins the queue of a reader that is there, what credit is added, and that RESET alone kills the stream and takes it off the table |
| LinkEffects.SocketLost | server/lib/MuxSession.js:276-287 | When the socket closes every stream is finished, the table is empty and no frame goes out |
| LinkEffects.ConnectionLost | cli/src/mux.rs:308-316 | When the connection closes every stream of the table dies, its reader is told and no frame goes out |
| LinkEffects.FinishedHasCause | server/lib/MuxSession.js:93-116 | In every reachable state a finished stream was closed both ways, reset by the client, or sent a RESET itself |
| LinkEffects.EndedIsClosed | server/lib/MuxSession.js:72-91 | In every reachable state an ended stream with nothing queued has sent CLOSE or is finished |
| LinkEffects.SentIsCounted | server/lib/MuxSession.js:209-214 | Every event adds to bytesSent exactly the DATA and DATAGRAM bytes it puts on the wire |
| LinkEffects.ReceivedIsCounted | server/lib/MuxSession.js:243-247 | Every event adds to bytesReceived exactly the DATA and DATAGRAM bytes that arrive |
| LinkWire.EveryFrameSurvives | server/lib/frames.js:7-19 | Every frame of every reachable channel has a 32-bit id and amount and is read by the other end as what was sent |
| DrainScheduler.NextAwake | server/lib/MuxSession.js:56-102 | Every event, from writes and window updates to drains, closes and destroys, keeps the wake-up invariant |
| Resets.ServerResets | server/lib/MuxSession.js:93-102 | The server emits at most one RESET per stream, none once it processed a RESET or a clean two-way CLOSE, and every RESET in its channel is accounted for |
| Resets.ClientResets | cli/src/mux.rs:89-128 | The client emits at most one RESET per stream and none once the stream is dead; after a clean two-way CLOSE one is emitted if and only if reset() is called on a stream neither dead nor dropped |
| Resets.ResetCalled | cli/src/mux.rs:124-127 | reset() kills an alive stream and hands exactly one RESET to a task unless disconnected; on a dead or dropped one nothing happens |
| Resets.ResetAfterCleanClose | cli/src/mux.rs:124-127 | A reachable state of a cleanly closed stream in which reset() emits a RESET |
| Resets.ResetsNeverBounce | cli/src/mux.rs:243-247 | Processing a RESET takes it off its channel and leaves every channel otherwise exactly as it was |
| LinkRun.NextStreams | server/lib/MuxSession.js:243-287 | Every event of either end keeps the invariant of every stream |
| LinkRun.NextIds | cli/src/mux.rs:276-282 | Every event keeps ids of each parity that were not handed out unknown everywhere |
| LinkRun.ReachableInv | server/lib/MuxSession.js:145-160 | Every state of every run satisfies the invariant of every stream |
| Direction.SendOk | server/lib/MuxSession.js:65-67 | Putting a piece on the wire moves credit and bytes and keeps the balance of the direction |
| MuxServer.Cut | server/lib/MuxSession.js:46-51 | A write is cut into pieces of at most 64 KiB whose concatenation is the write |
| MuxTypes.ChunksFull | server/lib/MuxSession.js:46-51 | Every piece but the last is exactly 64 KiB long |
| MuxServer.MuxStream.Read | server/lib/MuxSession.js:34-42 | The pending credit is granted in one WINDOW_UPDATE and reset, unless the stream is finished or closed by the peer |
| MuxServer.MuxStream.Write | server/lib/MuxSession.js:44-54 | A write is queued in pieces and flushed as the specification says; a finished stream ignores it |
| MuxServer.MuxStream.SendItem | server/lib/MuxSession.js:59-68 | The inner loop sends exactly the pieces of the head item that window and socket allow, or asks for a drain |
| MuxServer.MuxStream.FlushItem | server/lib/MuxSession.js:57-70 | One turn of the outer loop sends and shifts out the head item, or asks for a drain |
| MuxServer.MuxStream.FlushItems | server/lib/MuxSession.js:57-71 | The outer loop sends exactly what the recursive specification of a flush sends, in order |
| MuxServer.MuxStream.FlushWrites | server/lib/MuxSession.js:56-78 | The whole flush, with the CLOSE that follows an emptied queue, equals the specification: stream state, frames sent, session counters and drain list |
| MuxServer.MuxStream.Finish | server/lib/MuxSession.js:72-77 | A waiting final callback sends CLOSE once nothing is queued |
| MuxServer.MuxStream.Final | server/lib/MuxSession.js:80-84 | Ending the writable side closes after everything queued is sent |
| MuxServer.MuxStream.SendClose | server/lib/MuxSession.js:86-91 | CLOSE is sent at most once and never by a finished stream |
| MuxServer.MuxStream.MaybeFinish | server/lib/MuxSession.js:111-116 | A stream closed both ways is finished and leaves the table |
| MuxServer.MuxStream.Destroy | server/lib/MuxSession.js:93-102 | The queue is dropped; an unfinished stream sends RESET unless reset or cleanly closed, and leaves the table |
| MuxServer.MuxStream.SendDatagram | server/lib/MuxSession.js:104-109 | A datagram is sent only by an unfinished stream, within the size limit and with room in the socket |
| MuxServer.MuxStream.OnData | server/lib/MuxSession.js:118-122 | DATA is pushed and owed as credit unless the stream is closed by the peer or finished |
| MuxServer.MuxStream.OnClose | server/lib/MuxSession.js:124-129 | The first CLOSE ends the readable side and finishes a stream closed both ways |
| MuxServer.MuxStream.OnReset | server/lib/MuxSession.js:131-134 | A RESET destroys the stream without an answer |
| MuxServer.MuxStream.OnWindowUpdate | server/lib/MuxSession.js:136-139 | Credit grows by the amount and the queue is flushed |
| MuxServer.MuxSession.Send | server/lib/MuxSession.js:209-214 | A frame goes out, and DATA and DATAGRAM bytes are counted, only while the socket is open |
| MuxServer.MuxSession.WantDrain | server/lib/MuxSession.js:183-187 | The stream is listed once and the timer armed |
| MuxServer.MuxSession.Open | server/lib/MuxSession.js:216-224 | A new stream under the next id, announced by OPEN; nothing when closed |
| MuxServer.MuxSession.OnFrame | server/lib/MuxSession.js:243-274 | Each frame changes the session exactly as specified: counting, OPEN of a new stream, dispatch to a known one, nothing for an unknown one |
| MuxServer.MuxSession.FlushAll | server/lib/MuxSession.js:200-200 | Flushing the waiting streams one after the other equals the specification |
| MuxServer.MuxSession.Drain | server/lib/MuxSession.js:195-202 | A drain tick: stops the timer when nobody waits, does nothing on a full socket, else flushes everyone who waits |
| MuxServer.MuxSession.StopDraining | server/lib/MuxSession.js:189-193 | The timer is off and nothing else changes |
| MuxServer.MuxSession.OnSocketClose | server/lib/MuxSession.js:276-287 | The session closes once, every stream of the table is lost without a RESET, and the table is empty |
| MuxClient.Credit.Add | cli/src/mux.rs:62-65 | Credit grows by the amount |
| MuxClient.Credit.Take | cli/src/mux.rs:66-72 | One turn of the loop: refused when dead, taken in full when available, else waits with nothing taken |
| MuxClient.Handle.SendBegin | cli/src/mux.rs:105-106 | A send is cut into chunks of at most 64 KiB |
| MuxClient.Handle.SendPiece | cli/src/mux.rs:106-109 | One chunk is paid for and sent, waits, or the send is given up |
| MuxClient.Handle.SendDatagram | cli/src/mux.rs:113-117 | Oversized datagrams and dead streams send nothing |
| MuxClient.Handle.Close | cli/src/mux.rs:119-122 | CLOSE is sent at most once and never by a dead stream |
| MuxClient.Handle.Reset | cli/src/mux.rs:124-127 | RESET at most once, by a stream that was alive |
| MuxClient.Handle.Ack | cli/src/mux.rs:131-136 | All uncredited bytes are granted in one WINDOW_UPDATE unless the stream is dead |
| MuxClient.Handle.RecvBegin | cli/src/mux.rs:138-139 | Before waiting, 256 KiB or more of consumed bytes are credited |
| MuxClient.Handle.RecvTake | cli/src/mux.rs:140-154 | The oldest item is handed over; DATA is counted, CLOSE and RESET are noted |
| MuxClient.Handle.Drop | cli/src/mux.rs:89-97 | A dropped stream leaves the table and sends RESET unless dead or closed both ways |
| MuxClient.Handle.OnFrame | cli/src/mux.rs:239-254 | Each kind of frame for a known stream, and the removal of a reset one from the table |
| MuxClient.Mux.Send | cli/src/mux.rs:293-296 | In order, and only while connected |
| MuxClient.Mux.TrySend | cli/src/mux.rs:298-302 | Handed to a spawned task while connected |
| MuxClient.Mux.Register | cli/src/mux.rs:266-274 | A fresh stream with a full window under its id |
| MuxClient.Mux.Open | cli/src/mux.rs:276-282 | A new stream under the next odd id, announced by OPEN; nothing when not connected |
| MuxClient.Mux.Receive | cli/src/mux.rs:224-255 | A frame reaches its own stream and no other, OPEN registers one, and a frame for an unknown stream is ignored |
| MuxClient.Mux.Shutdown | cli/src/mux.rs:308-315 | Every stream of the table dies and its reader is told; nothing is sent |
| FrameCodec.Encode | server/lib/frames.js:7-14 | The array holds kind, big-endian id and payload |
| FrameCodec.DecodeEncode | server/lib/frames.js:16-19 | Decoding an encoded frame gives back kind, id and payload |
| FrameCodec.EncodeDecode | cli/src/mux.rs:47-53 | Every buffer of at least five bytes is the encoding of what it decodes to, so no two buffers decode alike |
| FrameCodec.WireRoundTrip | server/lib/frames.js:1-14 | Every protocol frame whose numbers fit 32 bits is read back as it was sent, by its kind, id and payload |
| FrameCodec.NetworkOrder | server/lib/frames.js:11-18 | Numbers are written most significant byte first: four bytes read as their value in base 256 |
| FrameCodec.FrameBytes | server/lib/frames.js:1-14 | The bytes of one frame of each kind, written out |
| WebSocketTheorems.ChunksDoNotMatter | server/lib/websocket.js:14-74 | For every byte stream and every way of cutting it, the parser emits the same messages and ends in the same state as when fed in one push, with and without a head to skip |
| WebSocketTheorems.DrainWire | server/lib/websocket.js:26-57 | Frames on the wire, of all three length forms, masked or not, are read back one by one with their payload unmasked |
| WebSocketTheorems.RoundTrip | server/lib/websocket.js:77-89 | Parsing the concatenated encodings of any list of messages, in any chunks, yields exactly that list and a fresh state |
| WebSocketTheorems.Reassembly | server/lib/websocket.js:58-72 | A message in any number of fragments with control frames anywhere between comes out once, at its last fragment, with the first opcode and the whole payload; control frames come out in place |
| WebSocketTheorems.FragmentsOnTheWire | server/lib/websocket.js:26-74 | From bytes, in any chunks: any mixture of whole messages, fragmented messages and control frames comes out as meant |
| WebSocketWire.ReadMeaning | server/lib/websocket.js:28-55 | From the bytes alone: exactly when the parser waits, exactly when it gives up, and otherwise a frame whose flag, opcode and length are those the header spells and whose payload, in exclusive or with the key byte of each position, is the bytes behind it |
| WebSocketWire.EncodeMeaning | server/lib/websocket.js:77-89 | The bytes the encoder writes: flag and opcode, the shortest of the three length forms, the mask bit with its key, and each payload byte in exclusive or with the key byte of its position |
| WebSocketWire.MaskedHello | server/lib/websocket.js:52-55 | The masked example of section 5.7 of RFC 6455 is read as "Hello" |
| WebSocketWire.PlainHello | server/lib/websocket.js:28-55 | The unmasked text and Ping examples |
| WebSocketWire.FragmentedHello | server/lib/websocket.js:28-55 | The fragmented example |
| WebSocketWire.LongerForms | server/lib/websocket.js:35-43 | The examples of 256 bytes and 64 KiB, in the 16-bit and 64-bit length forms |
| WebSocketWire.HeadSkipped | server/lib/websocket.js:17-22 | After a head, parsing starts right behind its first CR LF CR LF: in any chunks, exactly the messages that follow come out |
| WebSocketWire.OversizedKills | server/lib/websocket.js:44-48 | A frame that declares more than 16 MiB ends the parser: nothing comes out, the buffer is dropped, and everything later is ignored |
| WebSocketWire.OutOfPlace | server/lib/websocket.js:58-72 | A continuation without a start is ignored, a whole message among fragments leaves them alone, a new start drops them |
| WebSocketCodec.Mask | server/lib/websocket.js:54-54 | The in-place loop turns every byte into its exclusive or with the key byte of its position |
| WebSocketCodec.ReadFrame | server/lib/websocket.js:28-57 | One frame is read, or more bytes are needed, or the parser dies on an oversized frame, exactly as specified |
| WebSocketCodec.FrameParser.Push | server/lib/websocket.js:14-24 | Buffer, fragments, flags and messages after a chunk are those of the specification |
| WebSocketCodec.FrameParser.Drain | server/lib/websocket.js:26-74 | The endless loop ends, each turn consuming at least two bytes, with the specified state and messages |
| WebSocketCodec.EncodeFrame | server/lib/websocket.js:77-89 | The bytes written are those the round-trip theorem is about |
| Bits.XorCancels | server/lib/websocket.js:54-54 | Masking twice with one key gives back the byte |
| Bits.AndOnes | server/lib/websocket.js:30-33 | Masking with n ones keeps the n low bits |
| Bits.XorBits | server/lib/websocket.js:54-54 | Each binary digit of an exclusive or is set exactly when one of the two is |
| Bits.AndBits | server/lib/websocket.js:30-33 | Each binary digit of a conjunction is set exactly when both are |
| Bits.OrBits | server/lib/websocket.js:79-84 | Each binary digit of a disjunction is set exactly when one is |
| Search.IndexOf | server/lib/websocket.js:18-18 | The first place where the pattern occurs, or -1 exactly when there is none |
| Injection.StreamingRefines | server/lib/proxy.js:124-151 | For every body, snippet and chunking, the streamed output with its flush equals the one-shot injection |
| Injection.InjectedInPlace | server/lib/proxy.js:196-200 | Nothing of the body is lost or moved, and the snippet stands before the first place where the seven bytes of a closing head tag occur, each letter in either case, or at the end when there is none |
| Injection.MarkInAnyCase | server/lib/proxy.js:196-200 | Searching the lower-cased text finds the seven bytes of the tag in every mixture of cases and nothing else |
| Injection.SameSearch | server/lib/proxy.js:134-145 | With the last six bytes carried over, searching carry and chunk finds exactly what searching the whole input would |
| Injection.InjectTransform.Transform | server/lib/proxy.js:132-145 | Carry, flag and output change as specified |
| Injection.InjectTransform.Flush | server/lib/proxy.js:147-150 | The carry, followed by the snippet when it was not placed |
| Shaper.Release | cli/src/shape.rs:82-90 | The release time is the later of ready time and line, plus the transmission time, and becomes the new line |
| Shaper.Queue.Next | cli/src/shape.rs:92-96 | Chunks leave in arrival order, and the release time is the next of the whole run's recurrence |
| Shaper.ClosedForm | cli/src/shape.rs:82-90 | The n-th release is the maximum, over all k up to n and the initial line, of the end of an unbroken transmission since then |
| Shaper.ReleasedInOrder | cli/src/shape.rs:86-88 | Releases never go back in time and are apart by at least the transmission times between them |
| Shaper.LatencyKept | cli/src/shape.rs:83-85 | No chunk leaves before its latency has passed, and one that finds the line free waits no longer than its own delays |
| Shaper.OwnDelays | cli/src/shape.rs:82-85 | Ready time as arrival, latency, part of the jitter, and, when the draw falls below the loss, three latencies but no less than 0.2 seconds |
| Shaper.LostWaits | cli/src/shape.rs:78-86 | A chunk that plays a lost packet leaves no earlier than four latencies, and a latency and 0.2 seconds, after it came; any other that finds the line free waits for latency and jitter alone |
| Shaper.RateCap | cli/src/shape.rs:87-87 | The bytes released after release i up to release j are at most bandwidth times elapsed time |
| Shaper.WindowCap | cli/src/shape.rs:82-90 | In any stretch of time at most bandwidth times its length plus one chunk is released |
| RangeIndex.Ipv4 | server/lib/intel.js:21-31 | A value exactly for four parts that are all octets, and then the number they write in base 256 |
| RangeIndex.Aligned | server/lib/intel.js:55-57 | The block holds the address, has size 2^(32 - bits) and lies within the address space |
| RangeIndex.AlignedIsFloor | server/lib/intel.js:56-56 | The block starts at the address divided by the size, rounded down, times the size |
| RangeIndex.InAligned | server/lib/intel.js:55-57 | An address is in a block exactly when it shares the block's prefix |
| RangeIndex.NestedOrDisjoint | server/lib/intel.js:55-57 | Two blocks are nested, the longer prefix in the shorter, or disjoint |
| RangeIndex.Sort | server/lib/intel.js:59-59 | Sorted by first address, the same blocks |
| RangeIndex.RangeSet.constructor | server/lib/intel.js:46-60 | The sorted blocks of exactly the usable lines |
| RangeIndex.RangeSet.Has | server/lib/intel.js:62-75 | The loop answers what the recursive search answers, false for no address |
| RangeIndex.Sound | server/lib/intel.js:62-75 | A yes always comes with a block that holds the address, for every list, sorted or not |
| RangeIndex.AgreesFor | server/lib/intel.js:66-73 | For one address, search and scan agree unless it lies beyond every block the search looks at and still in an earlier one |
| RangeIndex.AgreesEverywhere | server/lib/intel.js:62-75 | Search and scan agree on all addresses if and only if no rank of the sorted list has a gap between what the search reaches and what is covered |
| RangeIndex.GapIsMissed | server/lib/intel.js:62-75 | Every such gap holds an address that the scan finds and the search misses |
| RangeIndex.ListSearch | server/lib/intel.js:46-75 | From the lines of a list: a yes is always listed, and every listed address is found if and only if there is no gap |
| RangeIndex.OrderedEndsAgree | server/lib/intel.js:62-75 | Search equals scan when the ends are in order too |
| RangeIndex.DisjointAgree | server/lib/intel.js:62-75 | Search equals scan for pairwise disjoint blocks |
| RangeIndex.NestedPrefixMissed | server/lib/intel.js:46-75 | A list of three lines and a listed address that is missed |
| RangeIndex.ShiftIsAligned | server/lib/intel.js:39-43 | The unsigned-shift test is membership in the aligned block for prefixes 1 to 32, and equality of addresses for the empty prefix |
| RangeIndex.PrivateRanges | server/lib/intel.js:17-19 | The private addresses are exactly the seven ranges |
| AccessRules.ParseRule | server/lib/access.js:40-49 | A rule exactly for a readable address with no prefix or a whole one within range, and which |
| AccessRules.MatchIsPrefix | server/lib/access.js:51-60 | Bytewise compare-and-mask equals equality of the numeric prefixes, for addresses of any length and every prefix length |
| AccessRules.PrefixFormsAgree | server/lib/access.js:51-60 | For IPv4 the rule match, the aligned block and (for 1 to 32 bits) the unsigned shift agree |
| AccessRules.ShorterMatchesMore | server/lib/access.js:51-60 | What a rule matches, each shorter prefix of it matches |
| AccessRules.AllowedMeans | server/lib/access.js:62-65 | An address is let in exactly when there are no rules or some readable rule of its family has its prefix |
| Bits.ShrIsDivision | server/lib/access.js:54-58 | Shifting is division by a power of two |
| RegistryTheorems.TableInvariant | server/lib/registry.js:90-190 | In every reachable state each tunnel of the table is served by an open session that will tell it, with nothing armed, or has no session, a deadline and exactly one timer armed for that deadline; without a grace period none is offline |
| RegistryTheorems.OfflineExpires | server/lib/registry.js:170-177 | An offline entry's timer is armed and its firing takes this entry and no other out of the table |
| RegistryTheorems.TakesOver | server/lib/registry.js:147-168 | From every reachable state, a session that registers a name or resumes a tunnel serves it, online, and no other tunnel changes |
| RegistryTheorems.InertForever | server/lib/registry.js:161-190 | A tunnel out of the table with no session and no timer stays so over every run |
| RegistryInvariant.StepInv | server/lib/registry.js:90-190 | Every event keeps the invariant of names, timers, callbacks and table |
| RegistryInvariant.EmitSound | server/lib/registry.js:161-166 | Running any number of close callbacks in order keeps it and uses them up |
| RegistryRemoval.OwnerCloseLeavesNothing | server/lib/registry.js:161-166 | After the owner closes with a bye or without grace, the tunnel is gone with nothing left that could act for it |
| RegistryRemoval.ExpiryLeavesNothing | server/lib/registry.js:175-176 | The same when its grace timer fires |
| RegistryRemoval.RemovalHasCause | server/lib/registry.js:161-190 | A name leaves the table if and only if it is removed explicitly, a timer armed for a tunnel of that name fires, or a session serving a tunnel of that name closes for good; an inert tunnel is never the cause |
| RegistryRemoval.StepStale | server/lib/registry.js:179-190 | Starting with nothing stale, a step leaves something stale if and only if it removes a tunnel that a session still serves |
| RegistryRemoval.OwnRemovalsOnly | server/lib/registry.js:161-190 | In runs without such removals a close or timer takes only its own tunnel out of the table |
| RegistryRemoval.CloseTakesName | server/lib/registry.js:161-166 | A session that closes for good takes the name of every tunnel it still serves, whoever has it now |
| RegistryRemoval.ExpiryTakesName | server/lib/registry.js:175-176 | A timer takes exactly the name of the tunnel it was armed for, whoever has it now |
| RegistryStale.CloseArms | server/lib/registry.js:161-177 | With a grace period the close of a session takes no name and arms a timer for every tunnel it still serves, in the table or not |
| RegistryStale.StaleReachable | server/lib/registry.js:179-190 | Without a grace period: a reachable state in which that close takes the name of a tunnel with an open session |
| RegistryStale.StaleTimerReachable | server/lib/registry.js:170-190 | With any grace period: a reachable state in which the timer armed by that close takes the name of a tunnel with an open session |
| RegistryStale.AttachNeedsOpen | server/lib/registry.js:147-168 | Attaching keeps the invariant if and only if the session is open; with a closed one the tunnel is in the table neither online nor offline |
| RegistryStale.StuckStays | server/lib/registry.js:147-190 | Such a tunnel stays so at every step but a resume, its explicit removal, or the close or timer of another tunnel of its name |
| RegistryReplacement.SupersededInert | server/lib/registry.js:147-168 | Erasing every event of any set of sessions that serve no tunnel, from any run in which they do not register again, leaves the rest of the registry exactly the same |
| RegistryReplacement.ReplacedIsIdle | server/lib/registry.js:154-157 | A resume makes the former owner session serve nothing and asks it to go |
| RegistryReplacement.ClosedIsIdle | server/lib/registry.js:161-166 | A closed session serves nothing |
| RegistryJoiners.JoinersAreOpen | server/lib/registry.js:217-219 | In every reachable state each joiner is an open session that leaves when it closes |
| RegistryJoiners.RemovalTells | server/lib/registry.js:179-190 | In every reachable state removing a name tells the session that serves it and every joiner, and nobody else |
| RegistryJoiners.JoinedIsTold | server/lib/registry.js:186-219 | A session that joined is told by a removal that follows |
| RegistryJoiners.JoinerNeverForgotten | server/lib/registry.js:186-219 | Over every run a joiner that has not closed is still listed by a tunnel of the table, or was told, whatever caused the removal |
| RegistryJoiners.ByeThenClose | server/lib/registry.js:161-166 | A bye and a close leave neither name nor timer nor grace period of the tunnels the session serves |
| TunnelRegistry.Registry.EndSessions | server/lib/registry.js:9-13 | Exactly the open ones among the given sessions are told |
| TunnelRegistry.Registry.Remove | server/lib/registry.js:179-190 | Name, timer, session, joiners and nothing else |
| TunnelRegistry.Registry.StartGrace | server/lib/registry.js:170-177 | Deadline and timer, or removal without a grace period |
| TunnelRegistry.Registry.OwnerClosed | server/lib/registry.js:161-166 | Only the current session's close detaches; a bye removes, anything else starts the grace period |
| TunnelRegistry.Registry.Close | server/lib/registry.js:161-166 | The callbacks run in order and the invariant holds afterwards |
| TunnelRegistry.Registry.Attach | server/lib/registry.js:147-168 | Timer and deadline go, another session is told to go, the callback is registered |
| TunnelRegistry.Registry.Register | server/lib/registry.js:116-137 | A free name gets a new tunnel with the session attached, a taken one is refused; the invariant holds when the session is open |
| TunnelRegistry.Registry.Resume | server/lib/registry.js:98-109 | The session takes the tunnel over; the invariant holds afterwards if and only if the session is open |
| TunnelRegistry.Registry.Join | server/lib/registry.js:204-221 | The joiner is listed until it closes; an unknown name is refused |
| TunnelRegistry.Registry.Expire | server/lib/registry.js:176-176 | The timer is used up and removes by name |
| UsageTheorems.TrafficConserved | server/lib/stats.js:47-79 | Over every run of sends, samples, session replacements, removals and overlapping flushes: stored, in-flight, pending and dropped bytes of an account equal the counters of its sessions at their last sample |
| UsageTheorems.NeverOvercharged | server/lib/quotas.js:97-107 | Stored usage never exceeds the bytes its sessions moved |
| UsageTheorems.SampleReads | server/lib/stats.js:53-66 | A sample reads exactly what is not counted yet |
| UsageTheorems.SampleComplete | server/lib/stats.js:47-79 | After a sample nothing of an attached session is uncounted |
| UsageTheorems.StepConserved | server/lib/quotas.js:77-107 | Every event keeps the books balanced |
| UsageTheorems.SharedSessionCountedTwice | server/lib/stats.js:53-66 | One session under two names would be charged twice: why it registers once |
| UsageTheorems.RecordAdds | server/lib/quotas.js:77-84 | Recording adds the traffic to its account and to no other, and creates no entry for nothing |
| UsageStored.StoredInFull | server/lib/quotas.js:97-107 | In every run whose stores do not fail: stored, in-flight and pending bytes of an account equal what its sessions had counted |
| UsageStored.TableHoldsAll | server/lib/quotas.js:97-107 | Once everything is flushed in such a run, the usage table holds exactly what the sessions had counted |
| UsageStored.FlushRunsThrough | server/lib/quotas.js:97-107 | From every state a flush can run to its end; then nothing is pending or under way, nothing more was dropped, and each row of the table has grown by all that was, bytes and requests |
| UsageStored.RowLeaves | server/lib/quotas.js:101-103 | Storing a row adds its bytes and requests to the table and takes it out of its batch |
| UsageStored.RequestsSampled | server/lib/stats.js:68-74 | A sample hands every waiting request to the account of its tunnel, once, and none of them waits any longer |
| UsageStored.RequestsConserved | server/lib/stats.js:43-79 | Over every run: the stored, in-flight, pending and dropped requests of an account are those that waited at its samples |
| UsageStored.RequestWaits | server/lib/stats.js:43-45 | A request adds one to what waits under its name |
| UsageStored.NameStartsAfresh | server/lib/stats.js:99-101 | A forgotten name leaves no marks or requests for whoever has it next |
| Metering.Stats.Sample | server/lib/stats.js:47-79 | The loop over the tunnels updates series and pending usage as the fold over its steps |
| Metering.Stats.SampleTunnel | server/lib/stats.js:50-74 | One tunnel's turn: restart at a new session, deltas, last values, requests |
| Metering.Stats.RecordRequest | server/lib/stats.js:43-45 | One more pending request for the name |
| Metering.Stats.Forget | server/lib/stats.js:99-101 | The name's series is gone |
| Metering.Quotas.Record | server/lib/quotas.js:77-84 | Traffic is added to the account; nothing is written for nothing |
| Metering.Quotas.StartFlush | server/lib/quotas.js:98-99 | The pending map is swapped out whole |
| Metering.Quotas.StoreRow | server/lib/quotas.js:101-103 | One row moves from its batch to the table |

## Left out

- MuxServer.MuxSession.Open: the id limit is a precondition, since 2^31 opens are out of scope; write callbacks are not modelled as calls (they only let the next write start, which is a later event).
- MuxServer.MuxSession.OnFrame: a second OPEN for a stream that was finished is excluded; LinkTheorems.OpenIsNew proves that the other end never sends one.
- Datagrams that reach the server are counted; what the code does with their content afterwards is not modelled.
- MuxServer.MuxStream.FlushWrites: bufferedAmount is an input, the number of pieces that still fit below the high-water mark.
- MuxClient.Handle.SendPiece: taking credit and putting the chunk in the outgoing channel are one step, so a send that is cancelled between the two is not modelled.
- MuxClient.Handle.SendBegin: sends after a close are excluded, as the pump never makes them.
- MuxClient.Handle: one object stands for Shared, MuxWriter and MuxReader of a stream; the drop of the last reference is one event.
- MuxClient.Handle.RecvTake: takes an item that is there; the end of the channel, which yields Reset and marks the stream dead, can only be reached by a stream that is dead already (LinkProgress.OffTableIsDead).
- MuxClient.Handle.Close: a close while a clone of the writer still sends is excluded, as the pump makes them one after the other.
- MuxClient.Mux.Open: the id limit is a precondition, as at the server.
- JSON metadata of OPEN, control messages, ping and pong, logging.
- Shaper.Queue.Next: states the release time; a timer that wakes late delivers later, and floating-point rounding of durations is not modelled.
- WebSocketCodec.EncodeFrame: opcodes of four bits and payloads below 4 GiB, which the 32-bit shifts of the length can carry.
- Injection.InjectTransform.Transform: bytes are read as latin1, and lower-casing covers the latin1 letters.
- RangeIndex.Ipv4: takes the parts of the text as numbers; splitting text and Number() are not modelled, nor are trimming and comment lines beyond a blank case.
- RangeIndex.Sort: the library sort is modelled as a stable insertion sort.
- AccessRules.ParseRule: starts from the bytes of the address; reading IPv4 and IPv6 text is not modelled.
- TunnelRegistry.Registry: tunnel and session objects are records addressed by a number that stands for their identity, so the model has maps where the source has references.
- RangeIndex.RangeSet.constructor: lines arrive trimmed and cut at the slash.
- TunnelRegistry.Registry.Register: quotas, policies, share codes, persistence and the choice of a random id are not modelled.
- TunnelRegistry.Registry.Join: share codes, hashes and the access policy are not modelled.
- UsageTheorems.TrafficConserved: is about bytes, with requests in UsageStored.RequestsConserved; usage is summed over months.
- Metering.Stats.Sample: buckets and totals for display are not modelled.
- Metering.Stats.SampleTunnel: buckets and totals for display are not modelled.
- Metering.Quotas.StoreRow: months are added together and the limit check after a row is not modelled.
- Quota enforcement, account limits and database failures other than losing the rest of a batch.
- HTTP forwarding, header rewriting, decompression, protocol sniffing, router, attempt limiter, breakpoints, TLS, accounts, user interfaces and stored logs: input and output plumbing, or small parts that would only add easy members.
