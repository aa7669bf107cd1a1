/** The stateful part of the multiplexer: a Connection owning two stream registries and an
    id counter, and the send-side and receive-side stream adapters it hands out. Every frame
    sent goes through one Wire (the installed send handler); every callback into application
    code is appended to one Events log. */
module Multiplex {
  import opened Codec
  import opened Dispatch

  /** The send handler: records every outbound frame, in order. */
  class Wire {
    var frames: seq<seq<byte>>

    constructor()
      ensures frames == []
    {
      frames := [];
    }

    method Send(frame: seq<byte>)
      modifies this
      ensures frames == old(frames) + [frame]
    {
      frames := frames + [frame];
    }
  }

  /** The callbacks the streams fire into application code, in order. */
  class Events {
    var log: seq<Event>

    constructor()
      ensures log == []
    {
      log := [];
    }

    method Emit(e: Event)
      modifies this
      ensures log == old(log) + [e]
    {
      log := log + [e];
    }
  }

  class Connection {
    const wire: Wire
    const events: Events
    var sendStreams: map<nat, SendStream>
    var receiveStreams: map<nat, ReceiveStream>
    var nextStreamId: nat

    /** Each registered stream belongs to this connection and sits under its own id; send
        ids are all below the counter, so the counter always names a fresh id; receive ids
        are the id bytes of CREATE frames. */
    ghost predicate Valid()
      reads this
    {
      (forall k :: k in sendStreams ==>
         sendStreams[k].conn == this && sendStreams[k].id == k && k < nextStreamId)
      && (forall k :: k in receiveStreams ==>
         receiveStreams[k].conn == this && receiveStreams[k].id == k && k < 256)
    }

    /** The registries as the dispatcher sees them. */
    ghost function Registries(): View
      reads this, receiveStreams.Values
    {
      View(sendStreams.Keys,
           map k | k in receiveStreams :: receiveStreams[k].terminated,
           nextStreamId)
    }

    constructor()
      ensures Valid() && fresh(wire) && fresh(events)
      ensures wire.frames == [] && events.log == []
      ensures sendStreams == map[] && receiveStreams == map[] && nextStreamId == 0
    {
      wire := new Wire();
      events := new Events();
      sendStreams := map[];
      receiveStreams := map[];
      nextStreamId := 0;
    }

    /** Handles one inbound message as Step describes: the registries, the counter and
        the events change exactly as Step says, and nothing is sent. */
    method HandleMessage(raw: seq<byte>) returns (outcome: Outcome)
      requires Valid()
      modifies this, events
      ensures Valid()
      ensures outcome == Step(old(Registries()), raw).outcome
      ensures Registries() == Step(old(Registries()), raw).view
      ensures events.log == old(events.log) + Step(old(Registries()), raw).events
      ensures sendStreams == old(sendStreams) && nextStreamId == old(nextStreamId)
      ensures wire.frames == old(wire.frames)
      ensures (Decode(raw).Ok? && Decode(raw).value.Create?) ==>
                Decode(raw).value.id in receiveStreams && fresh(receiveStreams[Decode(raw).value.id])
                && receiveStreams == old(receiveStreams)[Decode(raw).value.id := receiveStreams[Decode(raw).value.id]]
      ensures !(Decode(raw).Ok? && Decode(raw).value.Create?) ==>
                receiveStreams == old(receiveStreams)
    {
      match Decode(raw)
      case Err(err) =>
        outcome := Rejection(err);
      case Ok(f) =>
        match f
        case Create(id, md) =>
          ghost var before := Registries();
          var stream := MakeReceiveStream(id);
          receiveStreams := receiveStreams[id := stream];
          events.Emit(IncomingStream(id, md));
          outcome := Handled;
          assert Registries().recv == before.recv[id := false];
        case Data(id, d) =>
          if id in receiveStreams {
            receiveStreams[id].Receive(d);
            outcome := Handled;
          } else {
            outcome := Logged(UnknownStream(id));
          }
        case End(id) =>
          if id in receiveStreams {
            receiveStreams[id].End();
            outcome := Handled;
          } else {
            outcome := Thrown(UnknownStream(id));
          }
        case Terminate(id) =>
          if id in sendStreams {
            sendStreams[id].Stop();
            outcome := Handled;
          } else {
            outcome := Thrown(UnknownStream(id));
          }
        case RequestData(id, n) =>
          if id in sendStreams {
            sendStreams[id].RequestCallback(n);
            outcome := Handled;
          } else {
            outcome := Thrown(UnknownStream(id));
          }
    }

    /** Opens a send stream: takes the next id, registers a new stream under it and
        announces it with one CREATE frame carrying the metadata unchanged. */
    method CreateStream(metadata: seq<byte>) returns (stream: SendStream)
      requires Valid()
      modifies this, wire
      ensures Valid()
      ensures fresh(stream) && stream.conn == this && !stream.finished
      ensures stream.id == old(nextStreamId) && stream.id !in old(sendStreams)
      ensures nextStreamId == old(nextStreamId) + 1
      ensures sendStreams == old(sendStreams)[stream.id := stream]
      ensures receiveStreams == old(receiveStreams)
      ensures wire.frames == old(wire.frames) + [CreateFrame(stream.id, metadata)]
      ensures IsLocalStream(stream.id)
    {
      var id := NextStreamId();
      stream := MakeSendStream(id);
      sendStreams := sendStreams[id := stream];
      SignalCreateStream(id, metadata);
    }

    /** Hands out the counter's value and advances it; the value is never a registered
        send id, so no id is handed out twice. */
    method NextStreamId() returns (next: nat)
      requires Valid()
      modifies this`nextStreamId
      ensures Valid()
      ensures next == old(nextStreamId) && nextStreamId == next + 1
      ensures next !in sendStreams
    {
      next := nextStreamId;
      nextStreamId := nextStreamId + 1;
    }

    /** A send stream bound to this connection's send handler. */
    method MakeSendStream(id: nat) returns (stream: SendStream)
      ensures fresh(stream) && stream.id == id && stream.conn == this && !stream.finished
    {
      stream := new SendStream(id, this);
    }

    /** A receive stream bound to this connection's send handler. */
    method MakeReceiveStream(id: nat) returns (stream: ReceiveStream)
      ensures fresh(stream) && stream.id == id && stream.conn == this && !stream.terminated
    {
      stream := new ReceiveStream(id, this);
    }

    method SignalCreateStream(streamId: nat, metadata: seq<byte>)
      modifies wire
      ensures wire.frames == old(wire.frames) + [CreateFrame(streamId, metadata)]
    {
      wire.Send(CreateFrame(streamId, metadata));
    }

    method StreamSend(streamId: nat, data: seq<byte>)
      modifies wire
      ensures wire.frames == old(wire.frames) + [DataFrame(streamId, data)]
    {
      wire.Send(DataFrame(streamId, data));
    }

    /** The reaction to a local send stream's terminate: the JavaScript handler only logs it. */
    method TerminateSendStream(streamId: nat)
      ensures unchanged(wire, events)
    {
    }

    method TerminateReceiveStream(streamId: nat)
      modifies wire
      ensures wire.frames == old(wire.frames) + [TerminateFrame(streamId)]
    {
      wire.Send(TerminateFrame(streamId));
    }

    /** Whether an id names a local send stream; such an id was handed out already. */
    function IsLocalStream(streamId: nat): (local: bool)
      reads this
      requires Valid()
      ensures local <==> streamId in sendStreams
      ensures local ==> streamId < nextStreamId
    {
      streamId in sendStreams
    }
  }

  /** The send-side adapter: turns writes into DATA frames until it is ended. */
  class SendStream {
    const id: nat
    const conn: Connection
    var finished: bool

    constructor(id: nat, conn: Connection)
      ensures this.id == id && this.conn == conn && !finished
    {
      this.id := id;
      this.conn := conn;
      finished := false;
    }

    /** Writes one chunk; once the stream has ended, a write sends nothing. */
    method Write(data: seq<byte>)
      modifies conn.wire
      ensures conn.wire.frames
           == old(conn.wire.frames) + (if finished then [] else [DataFrame(id, data)])
    {
      if finished {
        return;
      }
      Send(data);
    }

    /** Ends the stream: it is finished from now on, one END frame goes out and the
        application's end callback fires. */
    method End()
      modifies this, conn.wire, conn.events
      ensures finished
      ensures conn.wire.frames == old(conn.wire.frames) + [EndFrame(id)]
      ensures conn.events.log == old(conn.events.log) + [SendEnded(id)]
    {
      finished := true;
      conn.wire.Send(EndFrame(id));
      conn.events.Emit(SendEnded(id));
    }

    /** Sends one DATA frame, finished or not. */
    method Send(data: seq<byte>)
      modifies conn.wire
      ensures conn.wire.frames == old(conn.wire.frames) + [DataFrame(id, data)]
    {
      conn.StreamSend(id, data);
    }

    /** A local request to terminate, passed to the connection (which only logs it). */
    method Terminate()
      ensures unchanged(conn.wire, conn.events)
    {
      conn.TerminateSendStream(id);
    }

    /** The remote receiver asked this stream to stop: the terminate callback fires. */
    method Stop()
      modifies conn.events
      ensures conn.events.log == old(conn.events.log) + [SendStopped(id)]
    {
      conn.events.Emit(SendStopped(id));
    }

    /** A credit grant from the remote receiver, forwarded to the producer. */
    method RequestCallback(count: nat)
      modifies conn.events
      ensures conn.events.log == old(conn.events.log) + [CreditGranted(id, count)]
    {
      conn.events.Emit(CreditGranted(id, count));
    }
  }

  /** The receive-side adapter: delivers DATA to the consumer and turns the consumer's
      demand into REQUEST_DATA frames, until it is terminated. */
  class ReceiveStream {
    const id: nat
    const conn: Connection
    var terminated: bool

    constructor(id: nat, conn: Connection)
      ensures this.id == id && this.conn == conn && !terminated
    {
      this.id := id;
      this.conn := conn;
      terminated := false;
    }

    /** The consumer wants more: one REQUEST_DATA frame, unless terminated. */
    method DemandChanged(numElements: nat)
      modifies conn.wire
      ensures conn.wire.frames
           == old(conn.wire.frames) + (if terminated then [] else [RequestFrame(id, numElements)])
    {
      if terminated {
        return;
      }
      conn.wire.Send(RequestFrame(id, numElements));
    }

    /** The remote sender ended: the consumer's end callback fires. */
    method End()
      modifies conn.events
      ensures conn.events.log == old(conn.events.log) + [ReceiveEnded(id)]
    {
      conn.events.Emit(ReceiveEnded(id));
    }

    /** One chunk from the remote sender, delivered unless terminated. */
    method Receive(data: seq<byte>)
      modifies conn.events
      ensures conn.events.log
           == old(conn.events.log) + (if terminated then [] else [Delivered(id, data)])
    {
      if terminated {
        return;
      }
      conn.events.Emit(Delivered(id, data));
    }

    /** The consumer gives up: the stream is terminated from now on and one TERMINATE
        frame asks the remote sender to stop. */
    method Terminate()
      modifies this, conn.wire
      ensures terminated
      ensures conn.wire.frames == old(conn.wire.frames) + [TerminateFrame(id)]
    {
      terminated := true;
      conn.TerminateReceiveStream(id);
    }
  }
}
