/** What a Connection does with one inbound message, stated on an abstract view of its
    registries: which ids have a send stream, which ids have a receive stream and whether
    that stream is terminated, and the next id the counter will hand out. The callbacks
    the streams fire into application code are recorded as events. */
module Dispatch {
  import opened Codec

  /** A callback into application code, tagged with the stream it concerns. */
  datatype Event =
    | IncomingStream(id: nat, metadata: seq<byte>)  // the onStream subscriber
    | Delivered(id: nat, data: seq<byte>)           // a receive stream's data callback
    | ReceiveEnded(id: nat)                         // a receive stream's end callback
    | SendEnded(id: nat)                            // a send stream's end callback
    | SendStopped(id: nat)                          // a send stream's terminate callback
    | CreditGranted(id: nat, count: nat)            // a send stream's request callback

  /** Why a message was not acted on. */
  datatype Problem = Rejected(error: DecodeError) | UnknownStream(id: nat)

  /** Logged: the connection reports the problem and carries on.
      Thrown: the JavaScript handler raises (a TypeError on a missing stream, a RangeError
      on a short count) before touching any state. */
  datatype Outcome = Handled | Logged(problem: Problem) | Thrown(problem: Problem)

  datatype View = View(sendIds: set<nat>, recv: map<nat, bool>, next: nat)

  datatype Effect = Effect(outcome: Outcome, view: View, events: seq<Event>)

  /** How a decoding failure surfaces. */
  function Rejection(e: DecodeError): (o: Outcome)
    ensures o != Handled
    ensures o.Thrown? <==> e == TruncatedCount
  {
    if e == TruncatedCount then Thrown(Rejected(e)) else Logged(Rejected(e))
  }

  /** The reaction to one inbound message. */
  function Step(v: View, raw: seq<byte>): (e: Effect)
    ensures e.view.sendIds == v.sendIds && e.view.next == v.next
    ensures e.view.recv.Keys >= v.recv.Keys
    ensures e.outcome != Handled ==> e.view == v && e.events == []
    ensures |e.events| <= 1
  {
    match Decode(raw)
    case Err(err) => Effect(Rejection(err), v, [])
    case Ok(f) =>
      match f
      case Create(id, md) =>
        Effect(Handled, v.(recv := v.recv[id := false]), [IncomingStream(id, md)])
      case Data(id, d) =>
        if id !in v.recv then Effect(Logged(UnknownStream(id)), v, [])
        else if v.recv[id] then Effect(Handled, v, [])
        else Effect(Handled, v, [Delivered(id, d)])
      case End(id) =>
        if id !in v.recv then Effect(Thrown(UnknownStream(id)), v, [])
        else Effect(Handled, v, [ReceiveEnded(id)])
      case Terminate(id) =>
        if id !in v.sendIds then Effect(Thrown(UnknownStream(id)), v, [])
        else Effect(Handled, v, [SendStopped(id)])
      case RequestData(id, n) =>
        if id !in v.sendIds then Effect(Thrown(UnknownStream(id)), v, [])
        else Effect(Handled, v, [CreditGranted(id, n)])
  }

  datatype Trace = Trace(view: View, events: seq<Event>)

  /** Messages handled one after another, in arrival order. */
  function Run(v: View, raws: seq<seq<byte>>): (t: Trace)
    ensures t.view.sendIds == v.sendIds && t.view.next == v.next
    ensures t.view.recv.Keys >= v.recv.Keys
    decreases |raws|
  {
    if raws == [] then Trace(v, [])
    else
      var e := Step(v, raws[0]);
      var t := Run(e.view, raws[1..]);
      Trace(t.view, e.events + t.events)
  }

  /** The DATA frames that carry the chunks, one per chunk, in order. */
  function DataFrames(id: nat, chunks: seq<seq<byte>>): (r: seq<seq<byte>>)
    ensures |r| == |chunks|
    ensures forall i :: 0 <= i < |chunks| ==> r[i] == DataFrame(id, chunks[i])
  {
    if chunks == [] then [] else [DataFrame(id, chunks[0])] + DataFrames(id, chunks[1..])
  }

  /** The data callbacks that deliver the chunks, one per chunk, in order. */
  function Deliveries(id: nat, chunks: seq<seq<byte>>): (r: seq<Event>)
    ensures |r| == |chunks|
    ensures forall i :: 0 <= i < |chunks| ==> r[i] == Delivered(id, chunks[i])
  {
    if chunks == [] then [] else [Delivered(id, chunks[0])] + Deliveries(id, chunks[1..])
  }

  // ---------------------------------------------------------------------------
  // Properties

  /** A CREATE registers a live receive stream under the id it names, leaves every other
      entry alone and announces the stream with its metadata unchanged. */
  lemma CreateRegisters(v: View, id: nat, md: seq<byte>)
    requires id < 256
    ensures Step(v, CreateFrame(id, md))
         == Effect(Handled, v.(recv := v.recv[id := false]), [IncomingStream(id, md)])
  {
    DecodeEncode(Create(id, md));
  }

  /** DATA for a live receive stream is delivered, byte for byte. */
  lemma DataDelivered(v: View, id: nat, d: seq<byte>)
    requires id < 256 && id in v.recv && !v.recv[id]
    ensures Step(v, DataFrame(id, d)) == Effect(Handled, v, [Delivered(id, d)])
  {
    DecodeEncode(Data(id, d));
  }

  /** DATA for a terminated receive stream is swallowed. */
  lemma DataAfterTerminate(v: View, id: nat, d: seq<byte>)
    requires id < 256 && id in v.recv && v.recv[id]
    ensures Step(v, DataFrame(id, d)) == Effect(Handled, v, [])
  {
    DecodeEncode(Data(id, d));
  }

  /** DATA for an id with no receive stream is logged and dropped: no state change, no delivery. */
  lemma DataToUnknownStream(v: View, id: nat, d: seq<byte>)
    requires id < 256 && id !in v.recv
    ensures Step(v, DataFrame(id, d)) == Effect(Logged(UnknownStream(id)), v, [])
  {
    DecodeEncode(Data(id, d));
  }

  /** END, TERMINATE and REQUEST_DATA for an id with no stream leave the state unchanged
      (where the JavaScript handler faults). */
  lemma ControlToUnknownStream(v: View, id: nat, n: nat)
    requires id < 256 && n < UINT32_LIMIT
    ensures id !in v.recv ==> Step(v, EndFrame(id)) == Effect(Thrown(UnknownStream(id)), v, [])
    ensures id !in v.sendIds ==> Step(v, TerminateFrame(id)) == Effect(Thrown(UnknownStream(id)), v, [])
    ensures id !in v.sendIds ==> Step(v, RequestFrame(id, n)) == Effect(Thrown(UnknownStream(id)), v, [])
  {
    DecodeEncode(End(id));
    DecodeEncode(Terminate(id));
    DecodeEncode(RequestData(id, n));
  }

  /** A credit request reaches the send stream it names with its count intact. */
  lemma CreditDelivered(v: View, id: nat, n: nat)
    requires id < 256 && n < UINT32_LIMIT && id in v.sendIds
    ensures Step(v, RequestFrame(id, n)) == Effect(Handled, v, [CreditGranted(id, n)])
  {
    DecodeEncode(RequestData(id, n));
  }

  /** A message whose kind byte names no frame kind changes nothing. */
  lemma UnsupportedTypeIgnored(v: View, raw: seq<byte>)
    requires |raw| >= 2 && raw[0] > STREAM_REQUEST_DATA
    ensures Step(v, raw) == Effect(Logged(Rejected(UnsupportedType(raw[0]))), v, [])
  {
    assert ParseMessage(raw).value.kind == raw[0];
  }

  /** The bytes a sender writes before ending arrive at a live receive stream as the same
      chunks, in order, followed by one end notification. */
  lemma {:induction false} DeliveredInOrder(v: View, id: nat, chunks: seq<seq<byte>>)
    requires id < 256 && id in v.recv && !v.recv[id]
    ensures Run(v, DataFrames(id, chunks) + [EndFrame(id)])
         == Trace(v, Deliveries(id, chunks) + [ReceiveEnded(id)])
  {
    var raws := DataFrames(id, chunks) + [EndFrame(id)];
    if chunks == [] {
      DecodeEncode(End(id));
      assert raws == [EndFrame(id)];
      assert Run(v, raws) == Trace(Step(v, raws[0]).view, Step(v, raws[0]).events + Run(v, []).events);
    } else {
      DataDelivered(v, id, chunks[0]);
      assert raws[0] == DataFrame(id, chunks[0]);
      assert raws[1..] == DataFrames(id, chunks[1..]) + [EndFrame(id)];
      DeliveredInOrder(v, id, chunks[1..]);
    }
  }

  /** One more chunk written adds one more DATA frame at the end. */
  lemma DataFramesAppend(id: nat, chunks: seq<seq<byte>>, chunk: seq<byte>)
    ensures DataFrames(id, chunks + [chunk]) == DataFrames(id, chunks) + [DataFrame(id, chunk)]
  {
    var l, r := DataFrames(id, chunks + [chunk]), DataFrames(id, chunks) + [DataFrame(id, chunk)];
    assert |l| == |r|;
    forall i | 0 <= i < |l| ensures l[i] == r[i] {
      assert (chunks + [chunk])[i] == if i < |chunks| then chunks[i] else chunk;
    }
  }

  /** A send stream of any id writes the same DATA frames as the stream with its low byte. */
  lemma DataFramesWrap(id: nat, chunks: seq<seq<byte>>)
    ensures DataFrames(id, chunks) == DataFrames(id % 256, chunks)
  {
    var l, r := DataFrames(id, chunks), DataFrames(id % 256, chunks);
    assert |l| == |r|;
    forall i | 0 <= i < |l| ensures l[i] == r[i] {
      assert DataFrame(id, chunks[i]) == DataFrame(id % 256, chunks[i]);
    }
  }

  /** Whatever a send stream of id `id` writes before ending reaches the receive stream
      registered under the id's low byte as the same chunks, in order, then one end. */
  lemma SentIsDelivered(v: View, id: nat, chunks: seq<seq<byte>>)
    requires id % 256 in v.recv && !v.recv[id % 256]
    ensures Run(v, DataFrames(id, chunks) + [EndFrame(id)])
         == Trace(v, Deliveries(id % 256, chunks) + [ReceiveEnded(id % 256)])
  {
    DataFramesWrap(id, chunks);
    assert EndFrame(id) == EndFrame(id % 256);
    DeliveredInOrder(v, id % 256, chunks);
  }

  /** A receive stream has no ended state: DATA after END is still delivered. */
  lemma DataAfterEndDelivered(v: View, id: nat, d: seq<byte>)
    requires id < 256 && id in v.recv && !v.recv[id]
    ensures Run(v, [EndFrame(id), DataFrame(id, d)]) == Trace(v, [ReceiveEnded(id), Delivered(id, d)])
  {
    DeliveredInOrder(v, id, []);
    DataDelivered(v, id, d);
    assert [EndFrame(id), DataFrame(id, d)][1..] == [DataFrame(id, d)];
    assert Run(v, [DataFrame(id, d)]) == Trace(v, [Delivered(id, d)] + Run(v, []).events);
  }
}
