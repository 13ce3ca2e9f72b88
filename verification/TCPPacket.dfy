/** The tcp.* envelope carried in every frame. */
module TCPPacket {
  import opened Bytes
  import opened TLPrimitives

  // CRC-32 of the eight schema lines of tcp.Packet.
  const ID_PING: uint32 := 0xbbe9627c
  const ID_PONG: uint32 := 0x0bd4302c
  const ID_PACKET: uint32 := 0x9c17baf8
  const ID_QUERY_ANSWER: uint32 := 0xc048c311
  const ID_QUERY_ERROR: uint32 := 0x4cd2f602
  const ID_QUERY: uint32 := 0x3af51908
  const ID_CONNECTED: uint32 := 0x636d41d6
  const ID_CONNECT: uint32 := 0xa57c4261

  /** Inclusive bounds on a frame's payload. */
  const MIN_FRAME_SIZE := 4
  const MAX_FRAME_SIZE := 16 * 1024 * 1024

  datatype Packet =
    | Ping(id: int64) | Pong(id: int64) | Connect(id: int64) | Connected(id: int64)
    | Data(data: seq<byte>) | Query(id: int64, data: seq<byte>) | QueryAnswer(id: int64, data: seq<byte>)
    | QueryError(id: int64, code: int32, message: seq<byte>)
  {
    /** The one variable-length part of the packet. */
    function Body(): seq<byte> {
      match this
      case Data(d) => d
      case Query(_, d) => d
      case QueryAnswer(_, d) => d
      case QueryError(_, _, m) => m
      case _ => []
    }
  }

  function EncPacket(p: Packet): (s: seq<byte>)
    ensures |s| >= MIN_FRAME_SIZE
    ensures |s| > |p.Body()|
  {
    match p
    case Ping(id) => EncU32(ID_PING) + EncI64(id)
    case Pong(id) => EncU32(ID_PONG) + EncI64(id)
    case Connect(id) => EncU32(ID_CONNECT) + EncI64(id)
    case Connected(id) => EncU32(ID_CONNECTED) + EncI64(id)
    case Data(d) => EncU32(ID_PACKET) + EncBytes(d)
    case Query(id, d) => EncU32(ID_QUERY) + (EncI64(id) + EncBytes(d))
    case QueryAnswer(id, d) => EncU32(ID_QUERY_ANSWER) + (EncI64(id) + EncBytes(d))
    case QueryError(id, c, m) => EncU32(ID_QUERY_ERROR) + (EncI64(id) + (EncI32(c) + EncBytes(m)))
  }

  function GetPacket(s: seq<byte>): Parsed<Packet> {
    var (id, t) :- GetU32(s);
    GetBody(id, t)
  }

  function GetBody(id: uint32, t: seq<byte>): Parsed<Packet> {
    if id == ID_PING then var (v, t) :- GetI64(t); Ok(Ping(v), t)
    else if id == ID_PONG then var (v, t) :- GetI64(t); Ok(Pong(v), t)
    else if id == ID_CONNECT then var (v, t) :- GetI64(t); Ok(Connect(v), t)
    else if id == ID_CONNECTED then var (v, t) :- GetI64(t); Ok(Connected(v), t)
    else if id == ID_PACKET then var (d, t) :- GetBytes(t); Ok(Data(d), t)
    else if id == ID_QUERY then
      var (v, t) :- GetI64(t);
      var (d, t) :- GetBytes(t);
      Ok(Query(v, d), t)
    else if id == ID_QUERY_ANSWER then
      var (v, t) :- GetI64(t);
      var (d, t) :- GetBytes(t);
      Ok(QueryAnswer(v, d), t)
    else if id == ID_QUERY_ERROR then
      var (v, t) :- GetI64(t);
      var (c, t) :- GetI32(t);
      var (m, t) :- GetBytes(t);
      Ok(QueryError(v, c, m), t)
    else Err(UnknownConstructor, t)
  }

  /** What the receiver makes of a whole payload; trailing bytes are not looked at. */
  function Decode(payload: seq<byte>): Result<Packet> { GetPacket(payload).Outcome() }

  /** A packet is recovered exactly when its body fits the three-byte length. */
  lemma PacketRoundTrip(p: Packet, rest: seq<byte>)
    ensures GetPacket(EncPacket(p) + rest) == Ok(p, rest) <==> |p.Body()| < TWO_24
  {
    hide EncU32, EncI32, EncI64, EncBytes, GetU32, GetI32, GetI64, GetBytes;
    match p
    case Ping(id) =>
      Assoc(EncU32(ID_PING), EncI64(id), rest);
      U32RoundTrip(ID_PING, EncI64(id) + rest);
      I64RoundTrip(id, rest);
    case Pong(id) =>
      Assoc(EncU32(ID_PONG), EncI64(id), rest);
      U32RoundTrip(ID_PONG, EncI64(id) + rest);
      I64RoundTrip(id, rest);
    case Connect(id) =>
      Assoc(EncU32(ID_CONNECT), EncI64(id), rest);
      U32RoundTrip(ID_CONNECT, EncI64(id) + rest);
      I64RoundTrip(id, rest);
    case Connected(id) =>
      Assoc(EncU32(ID_CONNECTED), EncI64(id), rest);
      U32RoundTrip(ID_CONNECTED, EncI64(id) + rest);
      I64RoundTrip(id, rest);
    case Data(d) =>
      Assoc(EncU32(ID_PACKET), EncBytes(d), rest);
      U32RoundTrip(ID_PACKET, EncBytes(d) + rest);
      BytesRoundTrip(d, rest);
    case Query(id, d) => TaggedRoundTrip(ID_QUERY, id, EncBytes(d), rest); BytesRoundTrip(d, rest);
    case QueryAnswer(id, d) => TaggedRoundTrip(ID_QUERY_ANSWER, id, EncBytes(d), rest); BytesRoundTrip(d, rest);
    case QueryError(id, c, m) =>
      TaggedRoundTrip(ID_QUERY_ERROR, id, EncI32(c) + EncBytes(m), rest);
      Assoc(EncI32(c), EncBytes(m), rest);
      I32RoundTrip(c, EncBytes(m) + rest);
      BytesRoundTrip(m, rest);
  }

  lemma TaggedRoundTrip(tag: uint32, id: int64, body: seq<byte>, rest: seq<byte>)
    ensures GetU32((EncU32(tag) + (EncI64(id) + body)) + rest) == Ok(tag, EncI64(id) + (body + rest))
    ensures GetI64(EncI64(id) + (body + rest)) == Ok(id, body + rest)
  {
    hide EncU32, EncI64, GetU32, GetI64;
    Assoc(EncU32(tag), EncI64(id) + body, rest);
    Assoc(EncI64(id), body, rest);
    U32RoundTrip(tag, EncI64(id) + (body + rest));
    I64RoundTrip(id, body + rest);
  }

  /**
   The frame size guard makes the truncated length unreachable: every packet whose encoding
   the frame writer accepts is decoded to itself by the receiver.
   */
  lemma AcceptedPacketsDecode(p: Packet)
    requires |EncPacket(p)| <= MAX_FRAME_SIZE
    ensures Decode(EncPacket(p)) == Success(p)
  {
    hide GetPacket, EncPacket;
    PacketRoundTrip(p, []);
    assert EncPacket(p) + [] == EncPacket(p);
  }

  /** Without the guard the loss is real: a 2^24-byte body is decoded as an empty one. */
  lemma UnguardedPacketIsCut(d: seq<byte>)
    requires |d| == TWO_24
    ensures Decode(EncPacket(Data(d))) == Success(Data([]))
  {
    hide EncU32, GetU32, EncLength, GetLength, Zeros, GetRaw;
    var h := EncLength(|d|);
    var z := Zeros(Pad(|h| + |d|));
    Assoc(h, d, z);
    LengthRoundTrip(|d|, d + z);
    U32RoundTrip(ID_PACKET, EncBytes(d));
    RawRoundTrip([], d + z);
    assert [] + (d + z) == d + z;
    assert EncLength(|d|) == [0xfe] + LE(|d|, 3) by { LongHeader(|d|); }
  }

  lemma LongHeader(n: nat)
    requires n >= 0xfe
    ensures EncLength(n) == [0xfe] + LE(n, 3)
  {
  }

  /** Anything but the eight constructors is refused, and so is a payload too short for one. */
  lemma UnknownIsRefused(payload: seq<byte>)
    ensures |payload| < 4 ==> Decode(payload) == Failure(ShortBuffer)
    ensures |payload| >= 4 && FromLE(payload[..4]) !in {0xbbe9627c, 0x0bd4302c, 0x9c17baf8, 0xc048c311,
                                                        0x4cd2f602, 0x3af51908, 0x636d41d6, 0xa57c4261}
            ==> Decode(payload) == Failure(UnknownConstructor)
  {
    hide FromLE, GetI64, GetBytes;
  }

  /** The constructor of each packet on the wire, least significant byte first. */
  lemma ConstructorsOnTheWire(id: int64, data: seq<byte>)
    ensures EncPacket(Ping(id))[..4] == [0x7c, 0x62, 0xe9, 0xbb] && EncPacket(Pong(id))[..4] == [0x2c, 0x30, 0xd4, 0x0b]
    ensures EncPacket(Connect(id))[..4] == [0x61, 0x42, 0x7c, 0xa5]
    ensures EncPacket(Connected(id))[..4] == [0xd6, 0x41, 0x6d, 0x63]
    ensures EncPacket(Data(data))[..4] == [0xf8, 0xba, 0x17, 0x9c]
  {
    hide EncU32, EncI64, EncBytes;
    TagFirst(ID_PING, 0x7c, 0x62, 0xe9, 0xbb, EncI64(id));
    TagFirst(ID_PONG, 0x2c, 0x30, 0xd4, 0x0b, EncI64(id));
    TagFirst(ID_CONNECT, 0x61, 0x42, 0x7c, 0xa5, EncI64(id));
    TagFirst(ID_CONNECTED, 0xd6, 0x41, 0x6d, 0x63, EncI64(id));
    TagFirst(ID_PACKET, 0xf8, 0xba, 0x17, 0x9c, EncBytes(data));
  }

  lemma QueriesOnTheWire(id: int64, code: int32, data: seq<byte>)
    ensures EncPacket(Query(id, data))[..4] == [0x08, 0x19, 0xf5, 0x3a]
    ensures EncPacket(QueryAnswer(id, data))[..4] == [0x11, 0xc3, 0x48, 0xc0]
    ensures EncPacket(QueryError(id, code, data))[..4] == [0x02, 0xf6, 0xd2, 0x4c]
  {
    hide EncU32, EncI64, EncBytes, EncI32;
    TagFirst(ID_QUERY, 0x08, 0x19, 0xf5, 0x3a, EncI64(id) + EncBytes(data));
    TagFirst(ID_QUERY_ANSWER, 0x11, 0xc3, 0x48, 0xc0, EncI64(id) + EncBytes(data));
    TagFirst(ID_QUERY_ERROR, 0x02, 0xf6, 0xd2, 0x4c, EncI64(id) + (EncI32(code) + EncBytes(data)));
  }

  // ---- encoders and decoder as the source writes them ------------------------------------

  method EncodeTCPConnect(id: int64) returns (payload: seq<byte>)
    ensures payload == EncPacket(Connect(id))
  {
    var w := new Writer();
    w.WriteUint32(ID_CONNECT);
    w.WriteInt64(id);
    return w.buf;
  }

  method EncodeTCPConnected(id: int64) returns (payload: seq<byte>)
    ensures payload == EncPacket(Connected(id))
  {
    var w := new Writer();
    w.WriteUint32(ID_CONNECTED);
    w.WriteInt64(id);
    return w.buf;
  }

  method EncodeTCPQuery(id: int64, data: seq<byte>) returns (payload: seq<byte>)
    ensures payload == EncPacket(Query(id, data))
  {
    hide EncU32, EncI64, EncBytes;
    var w := new Writer();
    w.WriteUint32(ID_QUERY);
    w.WriteInt64(id);
    w.WriteBytes(data);
    Assoc(EncU32(ID_QUERY), EncI64(id), EncBytes(data));
    return w.buf;
  }

  method EncodeTCPPacket(data: seq<byte>) returns (payload: seq<byte>)
    ensures payload == EncPacket(Data(data))
  {
    var w := new Writer();
    w.WriteUint32(ID_PACKET);
    w.WriteBytes(data);
    return w.buf;
  }

  method EncodeTCPPing(id: int64) returns (payload: seq<byte>)
    ensures payload == EncPacket(Ping(id))
  {
    var w := new Writer();
    w.WriteUint32(ID_PING);
    w.WriteInt64(id);
    return w.buf;
  }

  method EncodeTCPPong(id: int64) returns (payload: seq<byte>)
    ensures payload == EncPacket(Pong(id))
  {
    var w := new Writer();
    w.WriteUint32(ID_PONG);
    w.WriteInt64(id);
    return w.buf;
  }

  method DecodeTCPPacket(payload: seq<byte>) returns (res: Result<Packet>)
    ensures res == Decode(payload)
  {
    var r := new Reader(payload);
    assert r.Unread() == payload;
    hide GetU32, GetBody;
    var id :- r.ReadUint32();
    res := DecodeBody(r, id);
  }

  method DecodeBody(r: Reader, id: uint32) returns (res: Result<Packet>)
    requires r.Valid()
    modifies r
    ensures res == GetBody(id, old(r.Unread())).Outcome()
  {
    hide GetU32, GetI32, GetI64, GetBytes, Reader.Unread, Reader.Valid;
    if id == ID_PING || id == ID_PONG || id == ID_CONNECT || id == ID_CONNECTED {
      var v :- r.ReadInt64();
      return Success(if id == ID_PING then Ping(v) else if id == ID_PONG then Pong(v)
                     else if id == ID_CONNECT then Connect(v) else Connected(v));
    }
    if id == ID_PACKET {
      var d :- r.ReadBytes();
      return Success(Data(d));
    }
    if id == ID_QUERY || id == ID_QUERY_ANSWER {
      var v :- r.ReadInt64();
      var d :- r.ReadBytes();
      return Success(if id == ID_QUERY then Query(v, d) else QueryAnswer(v, d));
    }
    if id == ID_QUERY_ERROR {
      var v :- r.ReadInt64();
      var c :- r.ReadInt32();
      var m :- r.ReadBytes();
      return Success(QueryError(v, c, m));
    }
    return Failure(UnknownConstructor);
  }
}
