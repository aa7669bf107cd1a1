/** Two connections, A and B, joined by hand: every frame A's send handler records is fed
    to B's HandleMessage and the other way round. Each method starts from fresh
    connections and states what the application on each side observes. */
module Scenarios {
  import opened Codec
  import opened Dispatch
  import opened Multiplex

  /** Streams opened one after another on a connection get ids 0, 1, 2. */
  method SuccessiveIds(md: seq<byte>) returns (first: nat, second: nat, third: nat)
    ensures first == 0 && second == 1 && third == 2
  {
    var a := new Connection();
    var s0 := a.CreateStream(md);
    var s1 := a.CreateStream(md);
    var s2 := a.CreateStream(md);
    first, second, third := s0.id, s1.id, s2.id;
  }

  /** A opens a stream; B's subscriber sees stream 0 with the metadata A sent. */
  method OpenAcrossPeers(md: seq<byte>) returns (outcome: Outcome, seen: seq<Event>)
    ensures outcome == Handled && seen == [IncomingStream(0, md)]
  {
    var a := new Connection();
    var b := new Connection();
    var s := a.CreateStream(md);
    assert a.wire.frames == [CreateFrame(0, md)];
    assert b.Registries() == View({}, map[], 0);
    CreateRegisters(b.Registries(), 0, md);
    outcome := b.HandleMessage(a.wire.frames[0]);
    seen := b.events.log;
  }

  /** A writes [1, 2, 3] and ends, then writes again: the late write sends nothing. */
  method WriteThenEnd(md: seq<byte>) returns (sent: seq<seq<byte>>)
    ensures sent == [CreateFrame(0, md), DataFrame(0, [1, 2, 3]), EndFrame(0)]
  {
    var a := new Connection();
    var s := a.CreateStream(md);
    s.Write([1, 2, 3]);
    s.End();
    s.Write([4]);
    sent := a.wire.frames;
  }

  /** B, fed the frames of WriteThenEnd, shows its consumer the bytes and then the end,
      with nothing after the end. */
  method ReceiveUntilEnd(md: seq<byte>) returns (seen: seq<Event>)
    ensures seen == [IncomingStream(0, md), Delivered(0, [1, 2, 3]), ReceiveEnded(0)]
  {
    var b := new Connection();
    ghost var v0 := b.Registries();
    assert v0 == View({}, map[], 0);
    CreateRegisters(v0, 0, md);
    var o0 := b.HandleMessage(CreateFrame(0, md));
    ghost var v1 := b.Registries();
    assert v1 == View({}, map[0 := false], 0);
    DataDelivered(v1, 0, [1, 2, 3]);
    var o1 := b.HandleMessage(DataFrame(0, [1, 2, 3]));
    assert b.Registries() == v1;
    DecodeEncode(End(0));
    var o2 := b.HandleMessage(EndFrame(0));
    seen := b.events.log;
  }

  /** B's consumer asks for 65536 bytes; A's stream 0 is granted exactly that credit. */
  method CreditAcrossPeers(md: seq<byte>) returns (outcome: Outcome, granted: seq<Event>)
    ensures outcome == Handled
    ensures granted == [CreditGranted(0, 65536)]
  {
    var a := new Connection();
    var b := new Connection();
    var s := a.CreateStream(md);
    assert b.Registries() == View({}, map[], 0);
    CreateRegisters(b.Registries(), 0, md);
    var o := b.HandleMessage(a.wire.frames[0]);
    var r := b.receiveStreams[0];
    r.DemandChanged(65536);
    assert b.wire.frames == [RequestFrame(0, 65536)];
    assert a.Registries().sendIds == {0};
    CreditDelivered(a.Registries(), 0, 65536);
    outcome := a.HandleMessage(b.wire.frames[0]);
    granted := a.events.log;
  }

  /** A TERMINATE naming a stream B never opened changes nothing on B; the JavaScript
      handler raises here, which the outcome records. */
  method TerminateUnknownStream() returns (outcome: Outcome, streams: nat, seen: seq<Event>)
    ensures outcome == Thrown(UnknownStream(7))
    ensures streams == 0 && seen == []
  {
    var b := new Connection();
    assert b.Registries() == View({}, map[], 0);
    ControlToUnknownStream(b.Registries(), 7, 0);
    outcome := b.HandleMessage(TerminateFrame(7));
    streams := |b.sendStreams|;
    seen := b.events.log;
  }

  /** Once B's consumer terminates stream 0, one TERMINATE goes out, later DATA for the
      stream is not delivered and B's demand sends no request. */
  method TerminateSilencesReceiver(md: seq<byte>) returns (fromB: seq<seq<byte>>, seen: seq<Event>)
    ensures fromB == [TerminateFrame(0)]
    ensures seen == [IncomingStream(0, md)]
  {
    var b := new Connection();
    ghost var v0 := b.Registries();
    assert v0 == View({}, map[], 0);
    CreateRegisters(v0, 0, md);
    var o0 := b.HandleMessage(CreateFrame(0, md));
    var r := b.receiveStreams[0];
    r.Terminate();
    ghost var v1 := b.Registries();
    assert v1 == View({}, map[0 := true], 0);
    DataAfterTerminate(v1, 0, [9]);
    var o1 := b.HandleMessage(DataFrame(0, [9]));
    r.DemandChanged(1024);
    fromB, seen := b.wire.frames, b.events.log;
  }

  /** A TERMINATE for a stream A opened tells that stream to stop. */
  method TerminateStopsSender(md: seq<byte>) returns (outcome: Outcome, seen: seq<Event>)
    ensures outcome == Handled && seen == [SendStopped(0)]
  {
    var a := new Connection();
    var s := a.CreateStream(md);
    ghost var v := a.Registries();
    assert v.sendIds == {0};
    DecodeEncode(Terminate(0));
    outcome := a.HandleMessage(TerminateFrame(0));
    seen := a.events.log;
  }

  /** An application writing each chunk in turn and then ending: the stream's frames are
      the chunks' DATA frames, in order, followed by one END. */
  method WriteAllThenEnd(s: SendStream, chunks: seq<seq<byte>>)
    requires !s.finished
    modifies s, s.conn.wire, s.conn.events
    ensures s.finished
    ensures s.conn.wire.frames == old(s.conn.wire.frames) + DataFrames(s.id, chunks) + [EndFrame(s.id)]
    ensures s.conn.events.log == old(s.conn.events.log) + [SendEnded(s.id)]
  {
    var i := 0;
    while i < |chunks|
      invariant 0 <= i <= |chunks| && !s.finished
      invariant s.conn.wire.frames == old(s.conn.wire.frames) + DataFrames(s.id, chunks[..i])
      invariant s.conn.events.log == old(s.conn.events.log)
    {
      DataFramesAppend(s.id, chunks[..i], chunks[i]);
      assert chunks[..i + 1] == chunks[..i] + [chunks[i]];
      s.Write(chunks[i]);
      i := i + 1;
    }
    assert chunks[..i] == chunks;
    s.End();
  }
}
