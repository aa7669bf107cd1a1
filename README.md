# Verified model of the omnistreams-concurrent multiplexer

This project models the protocol engine that multiplexes many flow-controlled byte
streams over one ordered message channel. Its parts are:

- the frame codec: five frame kinds (CREATE, DATA, END, TERMINATE, REQUEST_DATA), each a
  kind byte and a stream-id byte followed by a kind-specific payload;
- the `Connection`: a registry of locally opened send streams, a registry of remotely
  opened receive streams, a monotonic id counter, and the dispatcher for inbound messages;
- the `SendStream` adapter, which turns writes into DATA frames until it has ended;
- the `ReceiveStream` adapter, which delivers DATA to its consumer and turns demand into
  REQUEST_DATA credit frames until it is terminated.

Files:

- `codec.dfy` (module `Codec`): bytes, frame builders, `ParseMessage`, `Decode`, the
  big-endian 32-bit count, and the round-trip lemmas.
- `dispatch.dfy` (module `Dispatch`): an abstract view of a connection's registries and
  `Step`, the pure reaction to one inbound message. `Run` applies `Step` to a sequence
  of messages. The lemmas cover each frame kind, unknown ids, and in-order delivery.
- `multiplex.dfy` (module `Multiplex`): the classes `Connection`, `SendStream` and
  `ReceiveStream`. Their methods update the object fields in place. Their contracts tie
  each method to `Step` and to the frame builders. `Wire` records every frame handed to
  the send handler. `Events` records every callback into application code.
- `scenarios.dfy` (module `Scenarios`): client methods that open fresh connections and pass
  frames between them. Each states what the application on each side observes.

Design decisions, where the code had to be read one way or another:

- Stream ids. The send-stream counter is unbounded, as in the JavaScript. Every frame
  carries `id % 256`, because a store into a `Uint8Array` or through `DataView.setInt8` keeps
  only the low byte. `Codec.DecodeEncodeWraps` states the consequence: stream 256 and
  stream 0 look the same on the wire (the TODO at index.js:196).
- Missing streams. END, TERMINATE and REQUEST_DATA for an id with no registry entry
  dereference `undefined` in the source. That throws before any state is touched. The
  model guards these cases: state stays unchanged, and the outcome is
  `Thrown(UnknownStream(id))`. DATA for an unknown id is logged and dropped, as the source
  does, with outcome `Logged(UnknownStream(id))`.
- Short messages. A message shorter than two bytes is rejected by `ParseMessage` as
  `Malformed` and changes nothing.
- Short REQUEST_DATA payloads. A payload under four bytes makes `getUint32(0)` throw a
  RangeError. This happens before the stream lookup. The outcome is
  `Thrown(Rejected(TruncatedCount))`.
- REQUEST_DATA size. The header and the 32-bit count need only 6 bytes, but the code
  allocates 10 (`new ArrayBuffer(2 + 8)`). The frame is the header, the count big-endian at
  offsets 2 to 5, then four zero bytes that are never written. The model keeps all 10.
- Further behaviours of the code that the model keeps as they are:
  - TERMINATE and REQUEST_DATA for unknown ids throw rather than being logged.
  - `SendStream.stop` fires its callback on every call; it is not guarded to be idempotent.
  - `ReceiveStream.end` fires even after the stream was terminated.
  - DATA after END is still delivered: a receive stream has no ended state, because `end`
    sets no flag and `receive` checks only the terminated flag (`Dispatch.DataAfterEndDelivered`).
  - A CREATE for an id already registered replaces the entry.
  - Registry entries are never removed.
  - Credit is advisory: a send stream writes whatever it is given.

## Model

| member | source | states |
|---|---|---|
| Codec.CreateFrame | index.js:189-203 | a CREATE frame is kind 0, the id's low byte, then the metadata bytes unchanged; its length is 2 plus the metadata length |
| Codec.DataFrame | index.js:205-213 | a DATA frame is kind 1, the id's low byte, then the data; its length is 2 plus the data length |
| Codec.EndFrame | index.js:149-154 | an END frame is exactly the two bytes kind 2 and the id's low byte |
| Codec.TerminateFrame | index.js:219-228 | a TERMINATE frame is exactly the two bytes kind 3 and the id's low byte |
| Codec.RequestFrame | index.js:166-173 | a REQUEST_DATA frame is ten bytes: kind 4, the id's low byte, the 4-byte count encoding, then four zero bytes |
| Codec.Encode | index.js:136-228 | every frame the engine sends starts with its kind tag and the low byte of its stream id |
| Codec.IdByte | index.js:197-199 | the id byte every store writes (index.js:152, 169, 199, 210, 223) is the id modulo 256, and equals the id when it is below 256 |
| Codec.CountBytes | index.js:171 | the count occupies exactly four bytes; the big-endian order and the reduction modulo 2^32 are fixed only by its body and by `Codec.CountRoundTrip` against `ReadCount` |
| Codec.ParseMessage | index.js:230-236 | a message of at least two bytes splits into kind, stream id and the rest, and these reassemble into the message; a shorter one is rejected as malformed |
| Codec.ReadCount | index.js:114-115 | the count read from a payload is below 2^32 |
| Codec.Decode | index.js:68-126 | a decoded frame carries the message's kind byte as its tag and byte 1 as its id, and fits the wire; decoding fails exactly for short messages, kind bytes above 4, and REQUEST_DATA with fewer than 6 bytes |
| Codec.CountRoundTrip | index.js:166-173 | writing a count with setUint32 and reading it with getUint32 gives back the count modulo 2^32, so every count from 0 to 2^32-1 is recovered |
| Codec.ParseBuilt | index.js:205-236 | parsing a CREATE, DATA, END or TERMINATE frame recovers its kind, the id byte and the exact payload |
| Codec.DecodeEncode | index.js:189-236 | decoding the bytes of any frame with an id below 256 (and a count below 2^32) gives back that frame |
| Codec.DecodeEncodeWraps | index.js:196-199 | for an id of 256 or more, decoding the frame gives the frame for id mod 256, so ids 256 apart collide on the wire |
| Codec.EncodeDecode | index.js:230-236 | a message that decodes to CREATE or DATA is exactly the encoding of that frame |
| Dispatch.Step | index.js:68-126 | handling a message never changes the send registry or the counter and never removes a receive entry; every message that is not handled leaves the state unchanged and fires no callback |
| Dispatch.CreateRegisters | index.js:72-84 | a CREATE registers a live receive stream under its id, keeps every other entry, and announces the stream with the metadata unchanged |
| Dispatch.DataDelivered | index.js:86-92 | DATA for a live receive stream delivers exactly its payload and changes no registry |
| Dispatch.DataAfterTerminate | index.js:340-343 | DATA for a terminated receive stream delivers nothing |
| Dispatch.DataToUnknownStream | index.js:89-95 | DATA for an unregistered id is logged and dropped: registries and counter unchanged, nothing delivered |
| Dispatch.ControlToUnknownStream | index.js:99-119 | END, TERMINATE or REQUEST_DATA for an unregistered id leaves all state unchanged and fires nothing, where the source throws |
| Dispatch.CreditDelivered | index.js:113-119 | a REQUEST_DATA for a registered send stream grants exactly the requested count to that stream |
| Dispatch.UnsupportedTypeIgnored | index.js:121-124 | a message with an unknown kind byte is logged and changes nothing |
| Dispatch.DeliveredInOrder | index.js:86-104 | the DATA frames of a live stream, followed by its END, deliver the same chunks in the same order, then one end notification, with the registries unchanged |
| Dispatch.DataFrames | index.js:205-213 | one DATA frame per chunk, each carrying that chunk, in order |
| Dispatch.Deliveries | index.js:340-347 | one data callback per chunk, each delivering that chunk, in order |
| Dispatch.Run | index.js:68-126 | messages handled one after another in arrival order never change the send registry or the counter and never remove a receive entry; each message is handled on the registries the previous one left, and the callbacks come in message order |
| Dispatch.DataFramesAppend | index.js:256-263 | writing one more chunk adds exactly one DATA frame for it at the end |
| Dispatch.DataFramesWrap | index.js:196-210 | a send stream of any id writes the same DATA frames as one with the id's low byte |
| Dispatch.SentIsDelivered | index.js:86-104 | the DATA frames a send stream of any id writes, then its END, reach the live receive stream registered under the id's low byte as the same chunks in order, then one end notification |
| Dispatch.DataAfterEndDelivered | index.js:336-347 | END then DATA for a live stream fires the end callback and then still delivers the data: there is no ended state |
| Multiplex.Wire.Send | index.js:128-130 | the installed send handler receives each frame once, in the order sent |
| Multiplex.Connection.constructor | index.js:61-66 | a new connection has empty registries, a counter at 0, and no frames or events |
| Multiplex.Connection.HandleMessage | index.js:68-126 | the outcome, the new registries and the callbacks fired are exactly those given by `Step` on the old registries; no frame is sent; the counter and send registry never change; a CREATE puts a fresh stream under its id and leaves every other receive entry holding the same stream object; any other message leaves the receive registry as it was |
| Multiplex.Connection.CreateStream | index.js:136-142 | registers a fresh, unfinished send stream under the old counter value, which was not in use; leaves all other entries alone; advances the counter by one; appends exactly one CREATE frame carrying the metadata |
| Multiplex.Connection.NextStreamId | index.js:183-187 | returns the counter and increments it; the returned id is not a registered send id |
| Multiplex.Connection.MakeSendStream | index.js:144-162 | a fresh, unfinished send stream bound to this connection under the given id |
| Multiplex.Connection.MakeReceiveStream | index.js:164-181 | a fresh, unterminated receive stream bound to this connection under the given id |
| Multiplex.Connection.SignalCreateStream | index.js:189-203 | appends one CREATE frame for the id and metadata |
| Multiplex.Connection.StreamSend | index.js:205-213 | appends one DATA frame for the id and data |
| Multiplex.Connection.TerminateSendStream | index.js:215-217 | sends nothing and fires nothing (the source only logs) |
| Multiplex.Connection.TerminateReceiveStream | index.js:219-228 | appends one TERMINATE frame for the id |
| Multiplex.Connection.IsLocalStream | index.js:239-241 | true exactly when the id has a send stream, and each such id is below the counter |
| Multiplex.SendStream.constructor | index.js:246-254 | a new send stream has its id, is bound to its connection and is not finished |
| Multiplex.SendStream.Write | index.js:256-263 | appends one DATA frame for the data if the stream has not ended, and nothing once it has |
| Multiplex.SendStream.End | index.js:281-285 | marks the stream finished, appends one END frame, and fires the end callback |
| Multiplex.SendStream.Send | index.js:287-290 | appends one DATA frame for the data, whether finished or not |
| Multiplex.SendStream.Terminate | index.js:292-294 | sends nothing and fires nothing |
| Multiplex.SendStream.Stop | index.js:296-301 | fires the terminate callback once per call |
| Multiplex.SendStream.RequestCallback | index.js:117-118 | forwards the granted count to the producer as a credit event |
| Multiplex.ReceiveStream.constructor | index.js:315-324 | a new receive stream has its id, is bound to its connection and is not terminated |
| Multiplex.ReceiveStream.DemandChanged | index.js:326-334 | appends one REQUEST_DATA frame for the count unless terminated, and nothing if terminated |
| Multiplex.ReceiveStream.End | index.js:336-338 | fires the consumer's end callback |
| Multiplex.ReceiveStream.Receive | index.js:340-347 | delivers the data to the consumer unless terminated, and nothing if terminated |
| Multiplex.ReceiveStream.Terminate | index.js:175-177 | marks the stream terminated and appends one TERMINATE frame for its id |
| Scenarios.SuccessiveIds | index.js:136-142 | streams opened one after another get ids 0, 1, 2 |
| Scenarios.OpenAcrossPeers | index.js:72-84 | a stream opened on A is announced on B as stream 0 with the metadata A sent |
| Scenarios.WriteThenEnd | index.js:256-285 | writing [1,2,3] then ending sends CREATE, DATA [1,2,3] and END; a write after the end sends nothing |
| Scenarios.WriteAllThenEnd | index.js:256-285 | writing any chunks in turn to an open stream and then ending sends exactly their DATA frames, in order, then one END, fires the end callback once and nothing else, and leaves the stream finished |
| Scenarios.ReceiveUntilEnd | index.js:86-104 | those three frames give B's consumer the announcement, the data [1,2,3] and then the end, nothing more |
| Scenarios.CreditAcrossPeers | index.js:113-119 | B's demand of 65536 reaches A's stream 0 as a credit grant of exactly 65536 |
| Scenarios.TerminateUnknownStream | index.js:105-112 | a TERMINATE for a stream never opened changes nothing and fires nothing |
| Scenarios.TerminateSilencesReceiver | index.js:326-347 | after B terminates its stream, exactly one TERMINATE frame leaves B, later DATA is not delivered, and demand sends no request |
| Scenarios.TerminateStopsSender | index.js:105-112 | a TERMINATE for A's open stream fires that stream's stop callback |

## Left out

- `Peer` (index.js:12-57): WebSocket binding, promises and the connection-id map are transport plumbing. Inbound messages are given to `HandleMessage` directly.
- `setSendHandler` and `onStream` (index.js:128-134): the installed send handler is the `Wire` log and the subscriber is the `Events` log. The model assumes both are installed, so the faults of calling an unset handler are not modelled.
- JSON metadata: `JSON.stringify`, `JSON.parse`, `str2ab` and `ab2str` are foreign library calls. Metadata is an opaque byte sequence passed through unchanged. A CREATE whose metadata fails to parse registers the stream and then throws (index.js:78-80). The model does not capture that partial effect.
- The omnistreams base classes `ProducerStream` and `ConsumerStream` are not part of this model. Their callbacks (data, end, terminate, request) are appends to the `Events` log. `ReceiveStream.Terminate` stands for the inherited terminate that the constructor wires to `_terminateReceiveStream` (index.js:319). It is assumed to set the terminated flag and then call that hook.
- Logging (`console.log`, `console.error`): a logged problem appears only as an `Outcome`.
- Dead code: the commented-out chunking and buffering (index.js:265-278, 349-381), and the unused `_bufferSize`, `_chunkSize`, `_buffer`, `_offset` and `_totalBytesReceived` fields.
- The `_chunker.cancel()` branch of `stop` (index.js:297-299): `_chunker` is never assigned.
- `onFlushed` and `onTerminateOld` (index.js:303-309): callback setters outside the protocol logic.
- Codec.ParseMessage: on a one-byte message, the source reads the stream id as `undefined` and dispatches on it. The model rejects every message under two bytes instead. For an empty message both end in a logged, state-free drop.
- JavaScript number conversions: counts are naturals reduced modulo 2^32 as `setUint32` does. Negative and fractional counts are not modelled.
- Transport: the model treats every outbound frame as bytes. In the JavaScript, `requestFunc` hands a `DataView` to the send handler (index.js:167-172), and `new Uint8Array` of a `DataView` in `_parseMessage` would be empty. A REQUEST_DATA frame reaches the peer as its 10 bytes only if the transport sends the view's bytes, as a WebSocket does. `Scenarios.CreditAcrossPeers` assumes such a transport.
- Scheduling: the engine is single-threaded and synchronous, and so is the model. The transport's ordering and loss guarantees are assumed, not modelled.
