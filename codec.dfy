/** The wire format of the multiplexer: five frame kinds, each a two-byte header
    (kind, stream id) followed by a kind-specific payload. The builders model the
    byte layouts written into Uint8Array/DataView buffers; ParseMessage models the
    header split done on every inbound message; Decode models the interpretation
    the dispatcher gives each kind. */
module Codec {

  /** One octet, as stored in a Uint8Array. */
  newtype byte = x: int | 0 <= x < 256

  const CREATE_RECEIVE_STREAM: byte := 0
  const STREAM_DATA: byte := 1
  const STREAM_END: byte := 2
  const TERMINATE_SEND_STREAM: byte := 3
  const STREAM_REQUEST_DATA: byte := 4

  const UINT32_LIMIT: nat := 0x1_0000_0000

  datatype Result<T, E> = Ok(value: T) | Err(error: E)

  /** What an inbound message can fail on before it reaches a stream. */
  datatype DecodeError =
    | Malformed                 // fewer than the two header bytes
    | UnsupportedType(kind: byte)
    | TruncatedCount            // a REQUEST_DATA payload too short for its 32-bit count

  /** The header split of a raw message: kind byte, stream id byte, the rest. */
  datatype Message = Message(kind: byte, streamId: byte, data: seq<byte>)

  /** A frame as the dispatcher understands it. */
  datatype Frame =
    | Create(id: nat, metadata: seq<byte>)
    | Data(id: nat, payload: seq<byte>)
    | End(id: nat)
    | Terminate(id: nat)
    | RequestData(id: nat, count: nat)

  /** The stream id byte a Uint8Array or DataView store keeps of an id: its low eight bits. */
  function IdByte(id: nat): (b: byte)
    ensures b as int == id % 256
    ensures id < 256 ==> b as int == id
  {
    (id % 256) as byte
  }

  /** The kind tag written in byte 0 of a frame. */
  function Tag(f: Frame): byte
  {
    match f
    case Create(_, _) => CREATE_RECEIVE_STREAM
    case Data(_, _) => STREAM_DATA
    case End(_) => STREAM_END
    case Terminate(_) => TERMINATE_SEND_STREAM
    case RequestData(_, _) => STREAM_REQUEST_DATA
  }

  /** A frame whose fields fit the wire: an 8-bit id and, for a credit request, a 32-bit count. */
  predicate WellFormed(f: Frame)
  {
    f.id < 256 && (f.RequestData? ==> f.count < UINT32_LIMIT)
  }

  // ---------------------------------------------------------------------------
  // Builders

  /** The CREATE frame emitted when a send stream is opened: header, then the metadata bytes. */
  function CreateFrame(id: nat, metadata: seq<byte>): (r: seq<byte>)
    ensures |r| == 2 + |metadata|
    ensures r[0] == CREATE_RECEIVE_STREAM && r[1] == IdByte(id) && r[2..] == metadata
  {
    [CREATE_RECEIVE_STREAM, IdByte(id)] + metadata
  }

  /** The DATA frame carrying one write of a send stream. */
  function DataFrame(id: nat, data: seq<byte>): (r: seq<byte>)
    ensures |r| == 2 + |data|
    ensures r[0] == STREAM_DATA && r[1] == IdByte(id) && r[2..] == data
  {
    [STREAM_DATA, IdByte(id)] + data
  }

  /** The END frame: header only. */
  function EndFrame(id: nat): (r: seq<byte>)
    ensures |r| == 2 && r[0] == STREAM_END && r[1] == IdByte(id)
  {
    [STREAM_END, IdByte(id)]
  }

  /** The TERMINATE frame a receiver sends to stop the remote sender: header only. */
  function TerminateFrame(id: nat): (r: seq<byte>)
    ensures |r| == 2 && r[0] == TERMINATE_SEND_STREAM && r[1] == IdByte(id)
  {
    [TERMINATE_SEND_STREAM, IdByte(id)]
  }

  /** A count as DataView.setUint32 stores it: reduced modulo 2^32, big-endian. */
  function CountBytes(n: nat): (r: seq<byte>)
    ensures |r| == 4
  {
    var m := n % UINT32_LIMIT;
    [(m / 0x100_0000) as byte, (m / 0x1_0000 % 0x100) as byte,
     (m / 0x100 % 0x100) as byte, (m % 0x100) as byte]
  }

  /** The REQUEST_DATA frame: a ten-byte buffer holding the header, the count at offsets
      2 to 5, and four zero bytes that are never written. */
  function RequestFrame(id: nat, count: nat): (r: seq<byte>)
    ensures |r| == 10
    ensures r[0] == STREAM_REQUEST_DATA && r[1] == IdByte(id)
    ensures r[2..6] == CountBytes(count) && r[6..] == [0, 0, 0, 0]
  {
    [STREAM_REQUEST_DATA, IdByte(id)] + CountBytes(count) + [0, 0, 0, 0]
  }

  /** The bytes handed to the send handler for a frame. */
  function Encode(f: Frame): (r: seq<byte>)
    ensures |r| >= 2 && r[0] == Tag(f) && r[1] == IdByte(f.id)
  {
    match f
    case Create(id, md) => CreateFrame(id, md)
    case Data(id, d) => DataFrame(id, d)
    case End(id) => EndFrame(id)
    case Terminate(id) => TerminateFrame(id)
    case RequestData(id, n) => RequestFrame(id, n)
  }

  // ---------------------------------------------------------------------------
  // Parsing

  /** The header split of an inbound message. A message too short to hold a header
      is rejected instead of being read past its end. */
  function ParseMessage(raw: seq<byte>): (r: Result<Message, DecodeError>)
    ensures r.Ok? <==> |raw| >= 2
    ensures r.Err? ==> r.error == Malformed
    ensures r.Ok? ==> raw == [r.value.kind, r.value.streamId] + r.value.data
  {
    if |raw| < 2 then Err(Malformed)
    else Ok(Message(raw[0], raw[1], raw[2..]))
  }

  /** DataView.getUint32(0): the big-endian unsigned value of the first four bytes. */
  function ReadCount(b: seq<byte>): (n: nat)
    requires |b| >= 4
    ensures n < UINT32_LIMIT
  {
    b[0] as nat * 0x100_0000 + b[1] as nat * 0x1_0000 + b[2] as nat * 0x100 + b[3] as nat
  }

  /** How the dispatcher reads an inbound message: by its kind byte, with the count of a
      credit request read from the start of the payload. */
  function Decode(raw: seq<byte>): (r: Result<Frame, DecodeError>)
    ensures r.Ok? ==> |raw| >= 2 && Tag(r.value) == raw[0] && r.value.id == raw[1] as nat
    ensures r.Ok? ==> WellFormed(r.value)
    ensures r.Err? <==> |raw| < 2 || raw[0] > STREAM_REQUEST_DATA
                        || (raw[0] == STREAM_REQUEST_DATA && |raw| < 6)
  {
    match ParseMessage(raw)
    case Err(e) => Err(e)
    case Ok(m) =>
      var id := m.streamId as nat;
      if m.kind == CREATE_RECEIVE_STREAM then Ok(Create(id, m.data))
      else if m.kind == STREAM_DATA then Ok(Data(id, m.data))
      else if m.kind == STREAM_END then Ok(End(id))
      else if m.kind == TERMINATE_SEND_STREAM then Ok(Terminate(id))
      else if m.kind == STREAM_REQUEST_DATA then
        if |m.data| < 4 then Err(TruncatedCount) else Ok(RequestData(id, ReadCount(m.data)))
      else Err(UnsupportedType(m.kind))
  }

  // ---------------------------------------------------------------------------
  // Properties

  /** The 32-bit count survives setUint32 followed by getUint32, for every count
      that fits (0 and 2^32 - 1 included); a larger count comes back reduced. */
  lemma CountRoundTrip(n: nat)
    ensures ReadCount(CountBytes(n)) == n % UINT32_LIMIT
    ensures n < UINT32_LIMIT ==> ReadCount(CountBytes(n)) == n
  {
    var m := n % UINT32_LIMIT;
    var b := CountBytes(n);
    var q1 := m / 0x100;
    var q2 := q1 / 0x100;
    var q3 := q2 / 0x100;
    assert m == q1 * 0x100 + m % 0x100;
    assert q1 == q2 * 0x100 + q1 % 0x100;
    assert q2 == q3 * 0x100 + q2 % 0x100;
    assert m / 0x1_0000 == q2;
    assert m / 0x100_0000 == q3;
    assert b[0] as nat == q3 && b[1] as nat == q2 % 0x100 && b[2] as nat == q1 % 0x100
      && b[3] as nat == m % 0x100;
  }

  /** Parsing a frame built by a builder recovers its header and payload; the id comes
      back as the byte the store kept. */
  lemma ParseBuilt(id: nat, payload: seq<byte>)
    ensures ParseMessage(CreateFrame(id, payload)) == Ok(Message(CREATE_RECEIVE_STREAM, IdByte(id), payload))
    ensures ParseMessage(DataFrame(id, payload)) == Ok(Message(STREAM_DATA, IdByte(id), payload))
    ensures ParseMessage(EndFrame(id)) == Ok(Message(STREAM_END, IdByte(id), []))
    ensures ParseMessage(TerminateFrame(id)) == Ok(Message(TERMINATE_SEND_STREAM, IdByte(id), []))
  {
    assert CreateFrame(id, payload)[2..] == payload;
    assert DataFrame(id, payload)[2..] == payload;
  }

  /** Decoding inverts encoding for every frame that fits the wire. */
  lemma DecodeEncode(f: Frame)
    requires WellFormed(f)
    ensures Decode(Encode(f)) == Ok(f)
  {
    match f
    case Create(id, md) => ParseBuilt(id, md);
    case Data(id, d) => ParseBuilt(id, d);
    case End(id) => ParseBuilt(id, []);
    case Terminate(id) => ParseBuilt(id, []);
    case RequestData(id, n) =>
      var raw := RequestFrame(id, n);
      assert raw[2..][..4] == CountBytes(n);
      CountRoundTrip(n);
  }

  /** Encoding a frame of any id and decoding it gives the frame addressed to the id's
      low byte: stream ids 256 apart are the same stream on the wire. */
  lemma DecodeEncodeWraps(f: Frame)
    requires f.RequestData? ==> f.count < UINT32_LIMIT
    ensures Decode(Encode(f)) == Ok(f.(id := f.id % 256))
  {
    DecodeEncode(f.(id := f.id % 256));
    assert Encode(f) == Encode(f.(id := f.id % 256));
  }

  /** A CREATE or DATA message is exactly the encoding of its decoded frame, so the two
      variable-length kinds lose nothing in decoding. */
  lemma EncodeDecode(raw: seq<byte>)
    requires Decode(raw).Ok? && (Decode(raw).value.Create? || Decode(raw).value.Data?)
    ensures Encode(Decode(raw).value) == raw
  {
    var m := ParseMessage(raw).value;
    assert raw == [m.kind, m.streamId] + m.data;
  }
}
