/**
 The session handshake as a closed system: the client's handshake and read loop on one side,
 the fake proxy's serve loop on the other, two framed byte queues in between. Connect and query
 ids, what the proxy announces, its verdict, the outcome of the on-chain registration, time-outs
 and the proxy stopping are all left open; the fake proxy's own announcement is one instance.
 */
module Handshake {
  import opened Bytes
  import opened TLPrimitives
  import opened TLTypes
  import opened TCPPacket
  import opened Frame
  import opened HandshakeCodec
  import Senders

  // ---- one direction of the connection ----------------------------------------------------

  /** Counters and bytes in flight, with what was sent and how much of it has been read. */
  datatype Wire = Wire(outSeqno: int32, inSeqno: int32, bytes: seq<byte>, sent: seq<Packet>, read: nat)

  const EMPTY_WIRE := Wire(0, 0, [], [], 0)

  function Put(w: Wire, p: Packet): Wire
    requires Sized(EncPacket(p))
  {
    w.(bytes := w.bytes + EncFrame(w.outSeqno, EncPacket(p)), outSeqno := WrapI32(w.outSeqno + 1), sent := w.sent + [p])
  }

  function Received(w: Wire): FrameRead { GetFrame(true, w.inSeqno, w.bytes) }

  function Take(w: Wire): Wire {
    var r := Received(w);
    w.(bytes := r.rest, inSeqno := r.inSeqno, read := w.read + 1)
  }

  ghost predicate WireInv(w: Wire) {
    && w.read <= |w.sent|
    && AllSized(Senders.Payloads(w.sent[w.read..]))
    && w.bytes == Frames(w.read, Senders.Payloads(w.sent[w.read..]))
    && w.outSeqno == WrapI32(|w.sent|)
    && w.inSeqno == WrapI32(w.read)
  }

  lemma PutKeepsWire(w: Wire, p: Packet)
    requires WireInv(w) && Sized(EncPacket(p))
    ensures WireInv(Put(w, p))
  {
    hide Frames, EncFrame, EncPacket, WrapI32;
    var w' := Put(w, p);
    var before := Senders.Payloads(w.sent[w.read..]);
    assert w'.sent[w.read..] == w.sent[w.read..] + [p];
    assert Senders.Payloads(w'.sent[w.read..]) == before + [EncPacket(p)];
    FramesAppend(w.read, before, EncPacket(p));
    assert w.read + |before| == |w.sent|;
    WrapAdds(|w.sent|);
  }

  /** The reader finds exactly the next packet, or nothing when all have been read. */
  lemma TakeKeepsWire(w: Wire)
    requires WireInv(w)
    ensures w.read == |w.sent| ==> Received(w).payload.Failure?
    ensures w.read < |w.sent| ==>
              && Received(w).payload == Success(EncPacket(w.sent[w.read]))
              && Decode(EncPacket(w.sent[w.read])) == Success(w.sent[w.read])
              && WireInv(Take(w))
  {
    hide EncFrame, EncPacket, WrapI32, Decode;
    if w.read < |w.sent| {
      var todo := Senders.Payloads(w.sent[w.read..]);
      var rest := Senders.Payloads(w.sent[w.read + 1..]);
      assert todo[1..] == rest;
      assert todo[0] == EncPacket(w.sent[w.read]) && Sized(todo[0]);
      hide GetFrame;
      FrameRoundTrip(true, w.inSeqno, WrapI32(w.read), todo[0], Frames(w.read + 1, rest));
      WrapAdds(w.read);
      AcceptedPacketsDecode(w.sent[w.read]);
    }
  }

  // ---- the two parties -----------------------------------------------------------------------

  datatype Config = Config(wallet: seq<byte>, rootConfigVersion: int32, registers: bool, announced: ConnectedToProxy)

  /** The announcement as the client must decode it: fields without their flag are zero. */
  function Understood(c: Config): ConnectedToProxy { c.announced.(params := c.announced.params.Seen()) }

  datatype ClientPhase =
    | Start
    | WaitConnected
    | WaitAnswer(q: int64)
    | Registering(got: ConnectedToProxy)      // accepted, to be registered on chain
    | Authorizing(got: ConnectedToProxy)      // the long authorisation comes next
    | WaitAuth(q: int64, got: ConnectedToProxy)
    | Ready(got: ConnectedToProxy, auth: AuthResult)
    | Failed

  datatype ProxyPhase = AwaitConnect | Serving | Stopped

  /** What the client did and saw, in order; logged where it happens. */
  datatype Event =
    | ConnectSent(id: int64)
    | TcpConnected                               // tcp.connected read off the wire
    | QuerySent(body: seq<byte>)
    | Validated(params: ProxyParams)
    | RegisteredOnChain(clientSC: seq<byte>, nonce: uint64, params: ProxyParams)
    | AuthAccepted

  datatype State = State(
    config: Config, client: ClientPhase, inited: bool, pending: set<int64>, answers: map<int64, seq<byte>>,
    proxy: ProxyPhase, up: Wire, down: Wire, events: seq<Event>)

  /** Keys and hashes are arrays of 32 bytes. */
  predicate Shaped(c: ConnectedToProxy) { |c.params.publicKey| == 32 && (c.auth.ShortAuth? ==> |c.auth.hash| == 32) }

  ghost predicate Init(s: State) {
    && Shaped(s.config.announced)
    && s == State(s.config, Start, false, {}, map[], AwaitConnect, EMPTY_WIRE, EMPTY_WIRE, [])
  }

  function ConnectBody(c: Config): seq<byte> {
    EncU32(ID_CLIENT_CONNECT_TO_PROXY) + EncClientParams(ClientParams(3, c.wallet, false, 1, 4))
        + EncI32(c.rootConfigVersion)
  }

  const AUTH_BODY: seq<byte> := EncU32(ID_AUTHORIZE_LONG)

  /** handleQuery: the answer packet for a query, or none for a body without a function id. */
  function Answer(c: Config, id: int64, body: seq<byte>, verdict: AuthResult, unsupported: seq<byte>): seq<Packet> {
    var f := GetU32(body);
    if f.Err? then []
    else if f.value == ID_CLIENT_CONNECT_TO_PROXY then [QueryAnswer(id, EncConnected(c.announced))]
    else if f.value == ID_AUTHORIZE_LONG || f.value == ID_AUTHORIZE_SHORT then [QueryAnswer(id, EncAuthResult(verdict))]
    else [QueryError(id, 13, unsupported)]
  }

  /** Writing is refused, and the refusal ignored, when the packet exceeds the frame size. */
  function PutAll(w: Wire, ps: seq<Packet>): Wire {
    if |ps| == 1 && Sized(EncPacket(ps[0])) then Put(w, ps[0]) else w
  }

  datatype Step =
    | SendConnect(id: int64) | SendConnectToProxy(q: int64) | TakeAnswer | Register(ok: bool) | SendAuth(q: int64)
    | TakeAuth | GiveUp
    | ReadDown                                                     // the client's read loop
    | ReadUp(verdict: AuthResult, unsupported: seq<byte>)          // the proxy's serve loop
    | StopProxy

  predicate Enabled(s: State, step: Step) {
    match step
    case SendConnect(_) => s.client.Start?
    case SendConnectToProxy(q) => s.client.WaitConnected? && s.inited && q !in s.pending
    case TakeAnswer => s.client.WaitAnswer? && s.client.q in s.answers
    case Register(_) => s.client.Registering?
    case SendAuth(q) => s.client.Authorizing? && q !in s.pending
    case TakeAuth => s.client.WaitAuth? && s.client.q in s.answers
    case GiveUp => !s.client.Ready?
    case ReadDown => Received(s.down).payload.Success?
    case ReadUp(_, _) => !s.proxy.Stopped? && Received(s.up).payload.Success?
    case StopProxy => true
  }

  function SendQuery(s: State, q: int64, body: seq<byte>, next: ClientPhase): State {
    var p := Query(q, body);
    if Sized(EncPacket(p)) then
      s.(up := Put(s.up, p), pending := s.pending + {q}, client := next, events := s.events + [QuerySent(body)])
    else s.(client := Failed)
  }

  function Dispatch(s: State, p: Result<Packet>): State {
    if p.Failure? then s
    else match p.value
      case Connected(_) => s.(inited := true, events := s.events + [TcpConnected])
      case Ping(id) => s.(up := PutAll(s.up, [Pong(id)]))
      case QueryAnswer(id, data) =>
        if id in s.pending then s.(pending := s.pending - {id}, answers := s.answers[id := data]) else s
      case QueryError(id, _, _) => if id in s.pending then s.(pending := s.pending - {id}, client := Failed) else s
      case _ => s
  }

  function Serve(s: State, p: Result<Packet>, verdict: AuthResult, unsupported: seq<byte>): State {
    if s.proxy.AwaitConnect? then
      if p.Success? && p.value.Connect? then s.(proxy := Serving, down := PutAll(s.down, [Connected(p.value.id)]))
      else s.(proxy := Stopped)
    else if p.Failure? then s.(proxy := Stopped)
    else match p.value
      case Query(id, body) => s.(down := PutAll(s.down, Answer(s.config, id, body, verdict, unsupported)))
      case Ping(id) => s.(down := PutAll(s.down, [Pong(id)]))
      case _ => s
  }

  function Apply(s: State, step: Step): State
    requires Enabled(s, step)
  {
    match step
    case SendConnect(id) =>
      s.(client := WaitConnected, up := PutAll(s.up, [Connect(id)]), events := s.events + [ConnectSent(id)])
    case SendConnectToProxy(q) => SendQuery(s, q, ConnectBody(s.config), WaitAnswer(q))
    case TakeAnswer =>
      var q := s.client.q;
      var s1 := s.(answers := s.answers - {q});
      var got := GetConnected(s.answers[q]);
      if got.Ok? && Validate(got.value.params) == Accepted
      then s1.(client := if s.config.registers then Registering(got.value) else Authorizing(got.value),
               events := s.events + [Validated(got.value.params)])
      else s1.(client := Failed)
    case Register(ok) =>
      var got := s.client.got;
      if ok then
        s.(client := Authorizing(got),
           events := s.events + [RegisteredOnChain(got.clientSC, got.auth.nonce, got.params)])
      else s.(client := Failed)
    case SendAuth(q) => SendQuery(s, q, AUTH_BODY, WaitAuth(q, s.client.got))
    case TakeAuth =>
      var q := s.client.q;
      var s1 := s.(answers := s.answers - {q});
      var res := GetAuthResult(s.answers[q]);
      if res.Ok? && res.value.AuthSuccess?
      then s1.(client := Ready(s.client.got, res.value), events := s.events + [AuthAccepted])
      else s1.(client := Failed)
    case GiveUp => s.(client := Failed)
    case ReadDown => Dispatch(s.(down := Take(s.down)), Decode(Received(s.down).payload.value))
    case ReadUp(v, u) => Serve(s.(up := Take(s.up)), Decode(Received(s.up).payload.value), v, u)
    case StopProxy => s.(proxy := Stopped)
  }

  ghost predicate Runs(s: State, steps: seq<Step>, end: State)
    decreases |steps|
  {
    if steps == [] then end == s
    else Enabled(s, steps[0]) && Runs(Apply(s, steps[0]), steps[1..], end)
  }

  // ---- the wires, in every state ------------------------------------------------------------

  ghost predicate Wires(s: State) { WireInv(s.up) && WireInv(s.down) }

  lemma PutAllKeepsWire(w: Wire, ps: seq<Packet>)
    requires WireInv(w)
    ensures WireInv(PutAll(w, ps))
  {
    if |ps| == 1 && Sized(EncPacket(ps[0])) {
      PutKeepsWire(w, ps[0]);
    }
  }

  lemma WiresKept(s: State, step: Step)
    requires Wires(s) && Enabled(s, step)
    ensures Wires(Apply(s, step))
  {
    hide WireInv, Put, PutAll, Take, Received, Decode, EncPacket, GetConnected, GetAuthResult, Validate, Answer, Sized;
    match step
    case SendConnect(id) => PutAllKeepsWire(s.up, [Connect(id)]);
    case SendConnectToProxy(q) => SendQueryKeepsWires(s, q, ConnectBody(s.config), WaitAnswer(q));
    case SendAuth(q) => SendQueryKeepsWires(s, q, AUTH_BODY, WaitAuth(q, s.client.got));
    case ReadDown =>
      ReadNext(s.down);
      var p := Decode(Received(s.down).payload.value);
      if p.Success? && p.value.Ping? { PutAllKeepsWire(s.up, [Pong(p.value.id)]); }
    case ReadUp(v, u) =>
      ReadNext(s.up);
      var p := Decode(Received(s.up).payload.value);
      if p.Success? {
        PutAllKeepsWire(s.down, [Connected(if p.value.Connect? then p.value.id else 0)]);
        PutAllKeepsWire(s.down, [Pong(if p.value.Ping? then p.value.id else 0)]);
        if p.value.Query? { PutAllKeepsWire(s.down, Answer(s.config, p.value.id, p.value.data, v, u)); }
      }
    case _ =>
  }

  lemma SendQueryKeepsWires(s: State, q: int64, body: seq<byte>, next: ClientPhase)
    requires Wires(s)
    ensures Wires(SendQuery(s, q, body, next))
  {
    hide WireInv, Put, EncPacket;
    if Sized(EncPacket(Query(q, body))) {
      PutKeepsWire(s.up, Query(q, body));
    }
  }

  /** If a frame can be read at all, it is the next packet sent. */
  lemma ReadNext(w: Wire)
    requires WireInv(w) && Received(w).payload.Success?
    ensures w.read < |w.sent| && WireInv(Take(w)) && Decode(Received(w).payload.value) == Success(w.sent[w.read])
  {
    hide Received, Take, Decode, EncPacket;
    TakeKeepsWire(w);
  }

  lemma {:induction false} RunsKeepWires(s: State, steps: seq<Step>, end: State)
    requires Wires(s) && Runs(s, steps, end)
    ensures Wires(end)
    decreases |steps|
  {
    hide Apply, Enabled, Wires;
    if steps != [] {
      WiresKept(s, steps[0]);
      RunsKeepWires(Apply(s, steps[0]), steps[1..], end);
    }
  }

  lemma WiresInitially(s: State)
    requires Init(s)
    ensures Wires(s)
  {
    assert Senders.Payloads([]) == [];
    assert Frames(0, []) == [];
  }

  lemma WireGap(w: Wire)
    requires WireInv(w)
    ensures w.read <= |w.sent| && w.outSeqno == WrapI32(w.inSeqno + (|w.sent| - w.read))
    ensures Received(w).payload.Success? <==> w.read < |w.sent|
  {
    hide Received, Take, Decode, EncPacket, Frames, WrapI32;
    TakeKeepsWire(w);
    WrapAddsMany(w.read, |w.sent| - w.read);
  }

  /**
   In every reachable state, of failed handshakes too, the gap between a sender's and its
   reader's seqno is the number of frames in flight, and no reader ever meets a frame it refuses.
   */
  lemma SeqnoGapIsInFlight(start: State, steps: seq<Step>, s: State)
    requires Init(start) && Runs(start, steps, s)
    ensures s.up.read <= |s.up.sent| && s.up.outSeqno == WrapI32(s.up.inSeqno + (|s.up.sent| - s.up.read))
    ensures s.down.read <= |s.down.sent| && s.down.outSeqno == WrapI32(s.down.inSeqno + (|s.down.sent| - s.down.read))
    ensures Received(s.up).payload.Success? <==> s.up.read < |s.up.sent|
    ensures Received(s.down).payload.Success? <==> s.down.read < |s.down.sent|
  {
    hide WireInv, Received, Init, Runs, WrapI32;
    WiresInitially(start);
    RunsKeepWires(start, steps, s);
    WireGap(s.up);
    WireGap(s.down);
  }

  // ---- the conversation ------------------------------------------------------------------------

  /** The connect query fits a frame. */
  predicate ConnectFits(c: Config) { |c.wallet| <= MAX_FRAME_SIZE - 44 }

  /** The announcement fits a frame. */
  predicate AnnouncementFits(c: Config) { |EncConnected(c.announced)| <= MAX_FRAME_SIZE - 16 }

  /** What the proxy may send back for one packet of the handshake. */
  ghost predicate IsReply(c: Config, request: Packet, reply: Packet) {
    match request
    case Connect(id) => reply == Connected(id)
    case Query(q, body) =>
      && reply.QueryAnswer? && reply.id == q
      && (body == ConnectBody(c) ==> IsAnnouncement(c, reply.data))
      && (body == AUTH_BODY ==> exists v :: IsVerdict(v, reply.data))
    case _ => false
  }

  ghost predicate IsAnnouncement(c: Config, data: seq<byte>) {
    data == EncConnected(c.announced) && AnnouncementFits(c)
  }

  ghost predicate IsVerdict(v: AuthResult, data: seq<byte>) {
    data == EncAuthResult(v) && if v.AuthSuccess? then EncodablePayment(v.payment) else |v.message| < TWO_24
  }

  /** The packets the client has sent so far, by phase. */
  ghost predicate Requests(s: State) {
    var sent := s.up.sent;
    match s.client
    case Start => sent == []
    case WaitConnected => |sent| == 1 && sent[0].Connect?
    case WaitAnswer(q) => |sent| == 2 && sent[0].Connect? && sent[1] == Query(q, ConnectBody(s.config))
    case Registering(_) => |sent| == 2 && sent[0].Connect? && sent[1].Query? && sent[1].data == ConnectBody(s.config)
    case Authorizing(_) => |sent| == 2 && sent[0].Connect? && sent[1].Query? && sent[1].data == ConnectBody(s.config)
    case WaitAuth(q, _) =>
      |sent| == 3 && sent[0].Connect? && sent[1].Query? && sent[1].data == ConnectBody(s.config)
          && sent[2] == Query(q, AUTH_BODY)
    case Ready(_, _) => |sent| == 3 && sent[0].Connect?
    case Failed => true
  }

  /** Replies follow the requests one for one; only an oversized one stays unsent, and then nothing more is asked. */
  ghost predicate Replies(s: State) {
    && (s.proxy.AwaitConnect? <==> s.up.read == 0 && !s.proxy.Stopped?)
    && |s.down.sent| <= s.up.read <= |s.up.sent|
    && (|s.down.sent| < s.up.read ==> s.proxy.Stopped? || s.up.read == |s.up.sent|)
    && (forall k :: 0 <= k < |s.down.sent| ==> IsReply(s.config, s.up.sent[k], s.down.sent[k]))
  }

  /** The client's own view: what it waits for is pending until the reply has been read. */
  ghost predicate Waiting(s: State) {
    && s.down.read <= |s.down.sent|
    && (s.inited <==> s.down.read >= 1)
    && match s.client
       case Start => s.pending == {} && s.answers == map[]
       case WaitConnected => s.pending == {} && s.answers == map[]
       case WaitAnswer(q) =>
         || (s.down.read == 1 && s.pending == {q} && s.answers == map[])
         || (s.down.read == 2 && s.pending == {} && q in s.answers && s.answers == map[q := s.answers[q]]
             && IsAnnouncement(s.config, s.answers[q]))
       case Registering(_) => s.down.read == 2 && s.pending == {} && s.answers == map[]
       case Authorizing(_) => s.down.read == 2 && s.pending == {} && s.answers == map[]
       case WaitAuth(q, _) =>
         || (s.down.read == 2 && s.pending == {q} && s.answers == map[])
         || (s.down.read == 3 && s.pending == {} && s.answers == map[q := s.down.sent[2].Body()]
             && exists v :: IsVerdict(v, s.down.sent[2].Body()))
       case Ready(_, auth) =>
         && s.pending == {} && s.answers == map[]
         && s.down.read == 3 && s.down.sent[2].Body() == EncAuthResult(auth)
       case Failed => true
  }

  /** The log from tcp.connect on: each stage is the one before and what it adds. */
  ghost function Linked(id: int64): seq<Event> { [ConnectSent(id), TcpConnected] }

  ghost function Asked(c: Config, id: int64): seq<Event> { Linked(id) + [QuerySent(ConnectBody(c))] }

  ghost function Greeted(c: Config, id: int64): seq<Event> { Asked(c, id) + [Validated(Understood(c).params)] }

  ghost function ReadyToAuthorize(c: Config, id: int64): seq<Event> {
    var got := Understood(c);
    Greeted(c, id) + (if c.registers then [RegisteredOnChain(got.clientSC, got.auth.nonce, got.params)] else [])
  }

  /** The client holds what was announced, and it passed validation. */
  ghost predicate Holds(c: Config, got: ConnectedToProxy) {
    got == Understood(c) && Compatible(got.params) && ConnectFits(c) && AnnouncementFits(c)
  }

  /** The id the client connected with. */
  ghost function ConnectId(s: State): int64 { if s.up.sent != [] && s.up.sent[0].Connect? then s.up.sent[0].id else 0 }

  ghost predicate Story(s: State) {
    var id := ConnectId(s);
    match s.client
    case Start => s.events == []
    case WaitConnected => s.events == if s.inited then Linked(id) else [ConnectSent(id)]
    case WaitAnswer(_) => s.events == Asked(s.config, id) && ConnectFits(s.config)
    case Registering(got) => Holds(s.config, got) && s.config.registers && s.events == Greeted(s.config, id)
    case Authorizing(got) => Holds(s.config, got) && s.events == ReadyToAuthorize(s.config, id)
    case WaitAuth(_, got) => Holds(s.config, got) && s.events == ReadyToAuthorize(s.config, id) + [QuerySent(AUTH_BODY)]
    case Ready(got, auth) =>
      && Holds(s.config, got) && auth.AuthSuccess?
      && s.events == ReadyToAuthorize(s.config, id) + [QuerySent(AUTH_BODY), AuthAccepted]
    case Failed => true
  }

  ghost predicate Inv(s: State) {
    && Wires(s) && Story(s) && Shaped(s.config.announced)
    && (!s.client.Failed? ==> Requests(s) && Replies(s) && Waiting(s))
  }

  lemma InvInitially(s: State)
    requires Init(s)
    ensures Inv(s)
  {
    WiresInitially(s);
  }

  // ---- facts about the single messages -------------------------------------------------------

  lemma ConnectIsAnswered(c: Config, q: int64, v: AuthResult, u: seq<byte>)
    ensures Answer(c, q, ConnectBody(c), v, u) == [QueryAnswer(q, EncConnected(c.announced))]
  {
    hide EncU32, GetU32, EncClientParams, EncI32, EncConnected;
    var id, params, version := EncU32(ID_CLIENT_CONNECT_TO_PROXY),
        EncClientParams(ClientParams(3, c.wallet, false, 1, 4)), EncI32(c.rootConfigVersion);
    Assoc(id, params, version);
    U32RoundTrip(ID_CLIENT_CONNECT_TO_PROXY, params + version);
  }

  lemma AuthIsAnswered(c: Config, q: int64, v: AuthResult, u: seq<byte>)
    ensures Answer(c, q, AUTH_BODY, v, u) == [QueryAnswer(q, EncAuthResult(v))]
  {
    hide EncU32, GetU32, EncAuthResult;
    U32RoundTrip(ID_AUTHORIZE_LONG, []);
    assert EncU32(ID_AUTHORIZE_LONG) + [] == AUTH_BODY;
  }

  lemma BodiesDiffer(c: Config)
    ensures ConnectBody(c) != AUTH_BODY
  {
  }

  lemma SmallPackets(id: int64)
    ensures Sized(EncPacket(Connect(id))) && Sized(EncPacket(Connected(id)))
  {
    hide EncU32, EncI64;
  }

  /** How long a byte string gets: a long one takes four more bytes, rounded up to a multiple of four. */
  lemma EncodedLength(b: seq<byte>)
    ensures |EncBytes(b)| == if |b| < 0xfe then (|b| + 4) / 4 * 4 else (|b| + 7) / 4 * 4
  {
  }

  lemma QuerySize(q: int64, body: seq<byte>)
    requires |body| % 4 == 0
    ensures Sized(EncPacket(Query(q, body))) <==> |body| <= MAX_FRAME_SIZE - 16
    ensures Sized(EncPacket(QueryAnswer(q, body))) <==> |body| <= MAX_FRAME_SIZE - 16
  {
    hide EncU32, EncI64, EncBytes;
    EncodedLength(body);
  }

  /** Whether the connect query goes out is a bound on the wallet address. */
  lemma ConnectSize(c: Config, q: int64)
    ensures Sized(EncPacket(Query(q, ConnectBody(c)))) <==> ConnectFits(c)
  {
    hide EncPacket, Sized;
    ConnectBodyLength(c);
    EncodedLength(c.wallet);
    QuerySize(q, ConnectBody(c));
  }

  lemma ConnectBodyLength(c: Config)
    ensures |ConnectBody(c)| == 24 + |EncBytes(c.wallet)|
  {
    hide EncU32, EncBytes, EncBool, EncI32;
    assert ClientParams(3, c.wallet, false, 1, 4).HasIsTest()
        && ClientParams(3, c.wallet, false, 1, 4).HasProtoVersion();
  }

  lemma AnnouncementSize(c: Config, q: int64)
    requires Shaped(c.announced)
    ensures Sized(EncPacket(QueryAnswer(q, EncConnected(c.announced)))) <==> AnnouncementFits(c)
  {
    hide EncPacket, Sized, EncConnected;
    ConnectedIsAligned(c.announced);
    QuerySize(q, EncConnected(c.announced));
  }

  lemma ProxyParamsLength(p: ProxyParams)
    requires |p.publicKey| == 32
    ensures |EncProxyParams(p)| % 4 == 0 && |EncProxyParams(p)| > |p.owner| && |EncProxyParams(p)| > |p.sc|
  {
    hide EncU32, EncBytes, EncBool, EncI32;
    var test := if p.HasIsTest() then EncBool(p.isTest) else [];
    var proto := if p.HasProtoVersion() then EncI32(p.proto) else [];
    assert |test + proto| % 4 == 0;
    assert |EncProxyParams(p)| == 36 + |EncBytes(p.owner)| + |EncBytes(p.sc)| + |test + proto|;
  }

  lemma PaymentLength(p: Payment)
    ensures |EncPayment(p)| % 4 == 0 && (p.Signed? ==> |EncPayment(p)| > |p.blob|)
  {
    hide EncU32, EncBytes;
  }

  lemma ConnectedIsAligned(c: ConnectedToProxy)
    requires Shaped(c)
    ensures |EncConnected(c)| % 4 == 0
    ensures |EncConnected(c)| > |c.params.owner| && |EncConnected(c)| > |c.params.sc|
            && |EncConnected(c)| > |c.clientSC|
    ensures c.payment.Signed? ==> |EncConnected(c)| > |c.payment.blob|
  {
    hide EncU32, EncU64, EncBytes, EncProxyParams, EncPayment;
    ProxyParamsLength(c.params);
    PaymentLength(c.payment);
    assert |EncAuth(c.auth)| == if c.auth.ShortAuth? then 44 else 12;
    hide EncAuth;
    assert |EncConnected(c)| == 4 + |EncProxyParams(c.params)| + |EncBytes(c.clientSC)| + |EncAuth(c.auth)|
        + |EncPayment(c.payment)|;
  }

  lemma AnnouncementDecodes(c: Config, data: seq<byte>)
    requires Shaped(c.announced) && IsAnnouncement(c, data)
    ensures GetConnected(data) == Ok(Understood(c), [])
  {
    hide EncConnected, GetConnected;
    ConnectedIsAligned(c.announced);
    ConnectedRoundTrip(c.announced, []);
    assert data + [] == data;
  }

  lemma SentVerdictIsShort(q: int64, v: AuthResult)
    requires Sized(EncPacket(QueryAnswer(q, EncAuthResult(v))))
    ensures IsVerdict(v, EncAuthResult(v))
  {
    hide EncU32, EncI64, EncI32, EncBytes;
    assert v.AuthFailed? ==> |EncAuthResult(v)| > |v.message|;
    assert v.AuthSuccess? && v.payment.Signed? ==> |EncAuthResult(v)| > |v.payment.blob|;
    assert |EncPacket(QueryAnswer(q, EncAuthResult(v)))| > |EncAuthResult(v)|;
  }

  lemma VerdictDecodes(v: AuthResult, data: seq<byte>)
    requires IsVerdict(v, data)
    ensures GetAuthResult(data) == Ok(v, [])
  {
    hide EncAuthResult, GetAuthResult;
    AuthResultRoundTrip(v, []);
    assert data + [] == data;
  }

  // ---- every step keeps the conversation ---------------------------------------------------------

  lemma ServeKeepsInv(s: State, v: AuthResult, u: seq<byte>)
    requires Inv(s) && Enabled(s, ReadUp(v, u)) && !s.client.Failed?
    ensures var s' := Apply(s, ReadUp(v, u));
            Story(s') && Requests(s') && Replies(s') && Waiting(s')
  {
    hide WireInv, Received, Take, Decode, EncPacket, Answer, ConnectBody, EncConnected, EncAuthResult, EncFrame,
        WrapI32, Sized, PutAll, Story, IsVerdict;
    ReadNext(s.up);
    var k := s.up.read;
    var p := s.up.sent[k];
    TakeIsLocal(s.up);
    var s' := Apply(s, ReadUp(v, u));
    if k == 0 {
      assert p.Connect?;
      SmallPackets(p.id);
      PutAllSends(s.down, Connected(p.id));
    } else {
      assert p.Query?;
      ServedQuery(s, k, v, u);
    }
    SameStory(s, s');
  }

  /** The reply to the k-th packet, a query, by its place in the conversation. */
  lemma ServedQuery(s: State, k: nat, v: AuthResult, u: seq<byte>)
    requires Inv(s) && !s.client.Failed?
    requires k == s.up.read && 1 <= k < |s.up.sent| && s.up.sent[k].Query?
    ensures var p := s.up.sent[k];
            var down := PutAll(s.down, Answer(s.config, p.id, p.data, v, u));
            && down.read == s.down.read
            && (down.sent == s.down.sent
                || (exists reply :: IsReply(s.config, p, reply) && down.sent == s.down.sent + [reply]))
  {
    hide WireInv, Received, Take, Decode, EncPacket, Answer, ConnectBody, EncConnected, EncAuthResult, EncFrame,
        WrapI32, Sized;
    var p := s.up.sent[k];
    BodiesDiffer(s.config);
    if k == 1 {
      ConnectIsAnswered(s.config, p.id, v, u);
      AnnouncementSize(s.config, p.id);
      var reply := QueryAnswer(p.id, EncConnected(s.config.announced));
      PutAllSends(s.down, reply);
      if Sized(EncPacket(reply)) {
        assert IsReply(s.config, p, reply);
      }
    } else {
      AuthIsAnswered(s.config, p.id, v, u);
      var reply := QueryAnswer(p.id, EncAuthResult(v));
      PutAllSends(s.down, reply);
      if Sized(EncPacket(reply)) {
        SentVerdictIsShort(p.id, v);
        assert IsReply(s.config, p, reply);
      }
    }
  }

  lemma TakeIsLocal(w: Wire)
    ensures var w' := Take(w); w'.sent == w.sent && w'.read == w.read + 1 && w'.outSeqno == w.outSeqno
  {
  }

  lemma PutAllSends(w: Wire, p: Packet)
    ensures var w' := PutAll(w, [p]);
            w'.read == w.read && w'.sent == if Sized(EncPacket(p)) then w.sent + [p] else w.sent
  {
  }

  lemma DispatchKeepsInv(s: State)
    requires Inv(s) && Enabled(s, ReadDown) && !s.client.Failed?
    ensures var s' := Apply(s, ReadDown);
            !s'.client.Failed? && Story(s') && Requests(s') && Replies(s') && Waiting(s')
  {
    hide WireInv, Received, Take, Decode, EncPacket, ConnectBody, EncConnected, EncAuthResult, Sized, IsVerdict, Story;
    ReadNext(s.down);
    TakeIsLocal(s.down);
    BodiesDiffer(s.config);
    var k := s.down.read;
    assert IsReply(s.config, s.up.sent[k], s.down.sent[k]);
    var s' := Apply(s, ReadDown);
    if k == 0 {
      assert s.client.WaitConnected? && !s.inited;
      ConnectedStory(s, s');
    } else {
      assert s.client.WaitAuth? && k == 2 ==> s'.answers == map[s.client.q := s.down.sent[2].Body()];
      SameStory(s, s');
    }
  }

  /** tcp.connected arrives: the only packet that adds to the log. */
  lemma ConnectedStory(s: State, s': State)
    requires Story(s) && s.client.WaitConnected? && !s.inited && s'.inited
    requires s'.client == s.client && s'.config == s.config && s'.up.sent == s.up.sent
            && s'.events == s.events + [TcpConnected]
    ensures Story(s')
  {
  }

  lemma SameStory(s: State, s': State)
    requires s'.client == s.client && s'.events == s.events && s'.config == s.config && s'.inited == s.inited
    requires s'.up.sent == s.up.sent
    ensures Story(s') == Story(s)
  {
  }

  lemma QueryKeepsInv(s: State, step: Step)
    requires Inv(s) && Enabled(s, step) && (step.SendConnectToProxy? || step.SendAuth?)
    ensures var s' := Apply(s, step);
            Story(s') && (!s'.client.Failed? ==> Requests(s') && Replies(s') && Waiting(s'))
  {
    hide WireInv, Received, Take, Decode, EncPacket, ConnectBody, EncConnected, EncAuthResult, Sized, IsVerdict,
        EncFrame, WrapI32;
    var s' := Apply(s, step);
    if step.SendConnectToProxy? {
      ConnectSize(s.config, step.q);
    }
    if !s'.client.Failed? {
      var body := if step.SendAuth? then AUTH_BODY else ConnectBody(s.config);
      assert s'.up.sent == s.up.sent + [Query(step.q, body)];
    }
  }

  lemma AnswerKeepsInv(s: State, step: Step)
    requires Inv(s) && Enabled(s, step) && (step.TakeAnswer? || step.TakeAuth?)
    ensures var s' := Apply(s, step);
            Story(s') && (!s'.client.Failed? ==> Requests(s') && Replies(s') && Waiting(s'))
    ensures step.TakeAnswer? ==>
              Apply(s, step).client == if !Compatible(Understood(s.config).params) then Failed
                                       else if s.config.registers then Registering(Understood(s.config))
                                       else Authorizing(Understood(s.config))
  {
    hide WireInv, Received, Take, Decode, EncPacket, ConnectBody, EncConnected, EncAuthResult, GetConnected,
        GetAuthResult, IsVerdict;
    if step.TakeAnswer? {
      AnnouncementDecodes(s.config, s.answers[s.client.q]);
      assert s.answers - {s.client.q} == map[];
    } else {
      var v :| IsVerdict(v, s.answers[s.client.q]);
      VerdictDecodes(v, s.answers[s.client.q]);
      assert s.answers - {s.client.q} == map[];
      assert s.answers[s.client.q] == EncAuthResult(v) by { VerdictIs(v, s.answers[s.client.q]); }
    }
  }

  lemma VerdictIs(v: AuthResult, data: seq<byte>)
    requires IsVerdict(v, data)
    ensures data == EncAuthResult(v)
  {
  }

  lemma OtherKeepsInv(s: State, step: Step)
    requires Inv(s) && Enabled(s, step) && (step.SendConnect? || step.Register? || step.GiveUp? || step.StopProxy?)
    ensures var s' := Apply(s, step);
            Story(s') && (!s'.client.Failed? ==> Requests(s') && Replies(s') && Waiting(s'))
  {
    hide WireInv, Received, Take, Decode, EncPacket, ConnectBody, EncConnected, EncAuthResult, IsVerdict, Sized;
    if step.SendConnect? {
      SmallPackets(step.id);
      PutAllSends(s.up, Connect(step.id));
    }
  }

  lemma FailedStays(s: State, step: Step)
    requires s.client.Failed? && Enabled(s, step)
    ensures Apply(s, step).client.Failed?
  {
    hide Decode, Received, PutAll, Answer, GetConnected, GetAuthResult, EncPacket, Sized, ConnectBody;
  }

  lemma StepKeepsInv(s: State, step: Step)
    requires Inv(s) && Enabled(s, step)
    ensures Inv(Apply(s, step))
  {
    hide Wires, Requests, Replies, Waiting, Apply, Enabled;
    WiresKept(s, step);
    ConfigStays(s, step);
    if s.client.Failed? {
      FailedStays(s, step);
      return;
    }
    match step
    case SendConnect(_) => OtherKeepsInv(s, step);
    case SendConnectToProxy(_) => QueryKeepsInv(s, step);
    case TakeAnswer => AnswerKeepsInv(s, step);
    case Register(_) => OtherKeepsInv(s, step);
    case SendAuth(_) => QueryKeepsInv(s, step);
    case TakeAuth => AnswerKeepsInv(s, step);
    case GiveUp => OtherKeepsInv(s, step);
    case ReadDown => DispatchKeepsInv(s);
    case ReadUp(v, u) => ServeKeepsInv(s, v, u);
    case StopProxy => OtherKeepsInv(s, step);
  }

  lemma {:induction false} RunsKeepInv(s: State, steps: seq<Step>, end: State)
    requires Inv(s) && Runs(s, steps, end)
    ensures Inv(end) && end.config == s.config
    decreases |steps|
  {
    hide Apply, Enabled, Inv;
    if steps != [] {
      StepKeepsInv(s, steps[0]);
      ConfigStays(s, steps[0]);
      RunsKeepInv(Apply(s, steps[0]), steps[1..], end);
    }
  }

  lemma ConfigStays(s: State, step: Step)
    requires Enabled(s, step)
    ensures Apply(s, step).config == s.config
  {
    hide Decode, Received, PutAll, Answer, GetConnected, GetAuthResult, EncPacket, Sized, ConnectBody;
  }

  // ---- packets the handshake has no use for -----------------------------------------------------------

  /** Answers and errors change nothing for a query that is not pending; an error for a pending one ends it all. */
  lemma AnswersAndErrors(s: State, id: int64, data: seq<byte>, code: int32)
    ensures id !in s.pending ==>
              Dispatch(s, Success(QueryAnswer(id, data))) == s && Dispatch(s, Success(QueryError(id, code, data))) == s
    ensures id in s.pending ==>
              var s' := Dispatch(s, Success(QueryError(id, code, data)));
              && s'.client.Failed? && id !in s'.pending
              && s'.answers == s.answers && s'.up == s.up && s'.events == s.events
  {
  }

  /** The proxy refuses functions it does not know with code 13, and stays silent without a function id. */
  lemma UnsupportedIsRefused(c: Config, id: int64, body: seq<byte>, v: AuthResult, u: seq<byte>)
    ensures |body| < 4 ==> Answer(c, id, body, v, u) == []
    ensures |body| >= 4 && FromLE(body[..4]) !in {0xff5fa0f4, 0xd3474303, 0x6c276723}
            ==> Answer(c, id, body, v, u) == [QueryError(id, 13, u)]
  {
    hide FromLE, EncConnected, EncAuthResult;
  }

  /** Both readers are strict. */
  lemma OtherSeqnoIsRefused(w: Wire)
    requires |w.bytes| >= 8 && GetI32(w.bytes[4..]).value != w.inSeqno
    ensures Received(w).payload.Failure?
  {
    hide GetU32, GetI32, WrapI32;
  }

  /** Either party may end it at any time before Ready: the proxy by stopping, the client by giving up for good. */
  lemma EitherMayEnd(s: State)
    ensures Enabled(s, StopProxy) && Apply(s, StopProxy) == s.(proxy := Stopped)
    ensures !s.client.Ready? ==> Enabled(s, GiveUp) && Apply(s, GiveUp) == s.(client := Failed)
  {
  }

  // ---- what Ready means --------------------------------------------------------------------------

  /**
   However the two parties interleave, whatever ids are drawn, whatever the proxy announces and
   decides: a client that is Ready sent tcp.connect, read tcp.connected, only then asked to be
   connected, decoded exactly the announcement, found it compatible, registered on chain with the
   announced address and nonce if it registers at all, sent the long authorisation after that, and
   was told success; in this order, and nothing else.
   */
  lemma ReadyMeansHandshakeDone(start: State, steps: seq<Step>, s: State)
    requires Init(start) && Runs(start, steps, s) && s.client.Ready?
    ensures var announced := start.config.announced;
            && s.client.got == announced.(params := announced.params.Seen())
            && Compatible(announced.params) && Validate(s.client.got.params) == Accepted
            && s.up.sent != [] && s.up.sent[0].Connect?
            && s.events == [ConnectSent(s.up.sent[0].id), TcpConnected,
                            QuerySent(ConnectBody(start.config)), Validated(announced.params.Seen())] +
                           (if start.config.registers
                            then [RegisteredOnChain(announced.clientSC, announced.auth.nonce, announced.params.Seen())]
                            else []) +
                           [QuerySent(AUTH_BODY), AuthAccepted]
    ensures s.client.auth.AuthSuccess?
    ensures |s.down.sent| == 3 && s.down.sent[2].Body() == EncAuthResult(s.client.auth)
    ensures s.pending == {} && s.answers == map[]
  {
    hide Init, Runs, Wires, EncConnected, EncAuthResult, ConnectBody, Validate;
    RunsFromStart(start, steps, s);
    SeenIsSeen(start.config.announced.params);
    ReadyHasThree(s);
  }

  lemma RunsFromStart(start: State, steps: seq<Step>, s: State)
    requires Init(start) && Runs(start, steps, s)
    ensures Inv(s) && s.config == start.config
  {
    hide Runs, Inv;
    InvInitially(start);
    RunsKeepInv(start, steps, s);
  }

  lemma SeenIsSeen(p: ProxyParams)
    ensures Compatible(p.Seen()) <==> Compatible(p)
    ensures Validate(p) == Accepted <==> Compatible(p)
  {
  }

  lemma ReadyHasThree(s: State)
    requires Inv(s) && s.client.Ready?
    ensures |s.down.sent| == 3
  {
    hide Wires, EncConnected, EncAuthResult, ConnectBody, Story, IsReply;
  }

  /** An announcement that arrives is decoded as announced, and accepted exactly if it is compatible. */
  lemma AnnouncementIsAccepted(start: State, steps: seq<Step>, s: State)
    requires Init(start) && Runs(start, steps, s) && Enabled(s, TakeAnswer)
    ensures var announced := start.config.announced;
            var got := announced.(params := announced.params.Seen());
            Apply(s, TakeAnswer).client == if !Compatible(announced.params) then Failed
                                           else if start.config.registers then Registering(got) else Authorizing(got)
  {
    hide Init, Runs, Inv, Enabled, Apply, Compatible;
    RunsFromStart(start, steps, s);
    SeenIsSeen(start.config.announced.params);
    AnswerKeepsInv(s, TakeAnswer);
  }

  // ---- Ready can always be reached ------------------------------------------------------------------

  /** One verdict that grants. */
  const SUCCESS: AuthResult := AuthSuccess(NoPayment, 0, 1000000)

  predicate Granted(data: seq<byte>) { var r := GetAuthResult(data); r.Ok? && r.value.AuthSuccess? }

  /** Nothing has gone wrong yet: nobody gave up or stopped, no reply was lost, no refusal was sent. */
  ghost predicate Healthy(s: State) {
    && Inv(s) && !s.client.Failed? && !s.proxy.Stopped?
    && |s.down.sent| == s.up.read
    && (|s.down.sent| == 3 ==> Granted(s.down.sent[2].Body()))
  }

  /** The two parties can agree: what they have to say fits a frame, and the announcement is compatible. */
  predicate Viable(c: Config) { ConnectFits(c) && AnnouncementFits(c) && Compatible(c.announced.params) }

  /** Packets still to be read and client actions still to be taken. */
  ghost function ToDo(s: State): int {
    (3 - s.up.read) + (3 - s.down.read) +
    match s.client
    case Start => 6
    case WaitConnected => 5
    case WaitAnswer(_) => 4
    case Registering(_) => 3
    case Authorizing(_) => 2
    case WaitAuth(_, _) => 1
    case _ => 0
  }

  lemma ToDoIsNatural(s: State)
    requires Healthy(s)
    ensures ToDo(s) >= 0
  {
    hide Wires, Story, EncAuthResult, IsReply, ConnectBody, EncConnected;
  }

  lemma SuccessFits(q: int64)
    ensures Sized(EncPacket(Query(q, AUTH_BODY))) && Sized(EncPacket(QueryAnswer(q, EncAuthResult(SUCCESS))))
  {
    hide EncU32, EncU64, EncI64, EncI32, EncBytes;
    assert |EncAuthResult(SUCCESS)| <= 100 && |AUTH_BODY| == 4;
    hide EncAuthResult;
    assert |EncBytes(EncAuthResult(SUCCESS))| <= 107 && |EncBytes(AUTH_BODY)| <= 11;
  }

  ghost predicate Nearer(s: State, step: Step) {
    Enabled(s, step) && Healthy(Apply(s, step)) && ToDo(Apply(s, step)) < ToDo(s) && Apply(s, step).config == s.config
  }

  lemma ServingGetsNearer(s: State)
    requires Healthy(s) && Viable(s.config) && s.up.read < |s.up.sent|
    ensures Nearer(s, ReadUp(SUCCESS, []))
  {
    hide Wires, Story, Requests, Replies, Waiting, Serve, Received, Take, EncAuthResult, Granted, Viable, Decode;
    var step := ReadUp(SUCCESS, []);
    InFlight(s);
    StepKeepsInv(s, step);
    ConfigStays(s, step);
    SuccessfulReply(s);
    ServedSame(s);
  }

  /** Packets sent and not yet read can be read, and decode to what was sent. */
  lemma InFlight(s: State)
    requires Wires(s)
    ensures s.up.read < |s.up.sent| ==>
              Received(s.up).payload.Success? && Decode(Received(s.up).payload.value) == Success(s.up.sent[s.up.read])
    ensures s.down.read < |s.down.sent| ==>
              && Received(s.down).payload.Success?
              && Decode(Received(s.down).payload.value) == Success(s.down.sent[s.down.read])
  {
    hide WireInv, Received, Decode, Take, WrapI32;
    WireGap(s.up);
    WireGap(s.down);
    if s.up.read < |s.up.sent| {
      ReadNext(s.up);
    }
    if s.down.read < |s.down.sent| {
      ReadNext(s.down);
    }
  }

  /** The packet the proxy is about to read, by its place in the conversation. */
  lemma NextRequest(s: State)
    requires Healthy(s) && s.up.read < |s.up.sent|
    ensures s.up.read <= 2 && (s.proxy.AwaitConnect? <==> s.up.read == 0) && Shaped(s.config.announced)
    ensures var p := s.up.sent[s.up.read];
            if s.up.read == 0 then p.Connect?
            else p.Query? && p.data == if s.up.read == 1 then ConnectBody(s.config) else AUTH_BODY
  {
    hide Wires, Story, EncAuthResult, IsReply, ConnectBody, EncConnected, IsVerdict;
  }

  /** What serving one packet changes on the proxy's side. */
  lemma SuccessfulReply(s: State)
    requires Healthy(s) && Viable(s.config) && s.up.read < |s.up.sent|
    ensures var s' := Serve(s.(up := Take(s.up)), Success(s.up.sent[s.up.read]), SUCCESS, []);
            && !s'.proxy.Stopped? && |s'.down.sent| == |s.down.sent| + 1
            && (|s'.down.sent| == 3 ==> Granted(s'.down.sent[2].Body()))
  {
    hide Inv, Received, Take, Decode, EncPacket, Answer, ConnectBody, EncConnected, EncAuthResult, PutAll, Sized,
        Granted, Compatible;
    NextRequest(s);
    var k := s.up.read;
    var p := s.up.sent[k];
    SmallPackets(p.id);
    SuccessFits(p.id);
    if k == 0 {
      PutAllSends(s.down, Connected(p.id));
    } else if k == 1 {
      ConnectIsAnswered(s.config, p.id, SUCCESS, []);
      AnnouncementSize(s.config, p.id);
      PutAllSends(s.down, QueryAnswer(p.id, EncConnected(s.config.announced)));
    } else {
      AuthIsAnswered(s.config, p.id, SUCCESS, []);
      SuccessDecodes();
      PutAllSends(s.down, QueryAnswer(p.id, EncAuthResult(SUCCESS)));
    }
  }

  lemma ServedSame(s: State)
    requires Enabled(s, ReadUp(SUCCESS, []))
    ensures var s' := Apply(s, ReadUp(SUCCESS, []));
            && s'.client == s.client && s'.answers == s.answers && s'.config == s.config
            && s'.up.read == s.up.read + 1 && s'.down.read == s.down.read
  {
    hide Decode, Received, Answer, EncPacket, Sized;
  }

  lemma ReadingGetsNearer(s: State)
    requires Healthy(s) && s.down.read < |s.down.sent|
    ensures Nearer(s, ReadDown)
  {
    hide Wires, Story, Requests, Replies, Waiting, Dispatch, Received, Take, EncAuthResult, Granted, Decode;
    InFlight(s);
    StepKeepsInv(s, ReadDown);
    ConfigStays(s, ReadDown);
    Dispatched(s);
  }

  lemma Dispatched(s: State)
    requires Healthy(s) && s.down.read < |s.down.sent|
    ensures var s' := Dispatch(s.(down := Take(s.down)), Success(s.down.sent[s.down.read]));
            && !s'.client.Failed? && s'.client == s.client && s'.proxy == s.proxy && s'.up == s.up
            && s'.down.sent == s.down.sent && s'.down.read == s.down.read + 1
  {
    hide WireInv, Received, Take, Decode, EncPacket, ConnectBody, EncConnected, EncAuthResult, Sized, IsVerdict, Story;
    TakeIsLocal(s.down);
    var k := s.down.read;
    assert IsReply(s.config, s.up.sent[k], s.down.sent[k]);
  }

  /** With every packet read, the client can act, unless it is done. */
  function ClientStep(s: State): Step {
    match s.client
    case Start => SendConnect(0)
    case WaitConnected => SendConnectToProxy(0)
    case WaitAnswer(_) => TakeAnswer
    case Registering(_) => Register(true)
    case Authorizing(_) => SendAuth(0)
    case _ => TakeAuth
  }

  lemma ClientStepIsEnabled(s: State)
    requires Healthy(s) && !s.client.Ready? && s.up.read == |s.up.sent| && s.down.read == |s.down.sent|
    ensures Enabled(s, ClientStep(s))
  {
    hide Wires, EncAuthResult, IsReply, ConnectBody, EncConnected, IsVerdict;
  }

  lemma ActingGetsNearer(s: State)
    requires Healthy(s) && Viable(s.config) && !s.client.Ready? && s.up.read == |s.up.sent|
            && s.down.read == |s.down.sent|
    ensures Nearer(s, ClientStep(s))
  {
    var step := ClientStep(s);
    ClientStepIsEnabled(s);
    StepKeepsInv(s, step);
    ConfigStays(s, step);
    Acted(s);
  }

  lemma Acted(s: State)
    requires Healthy(s) && Viable(s.config) && !s.client.Ready? && Enabled(s, ClientStep(s))
    ensures var s' := Apply(s, ClientStep(s));
            && !s'.client.Failed? && s'.proxy == s.proxy && s'.down == s.down && s'.up.read == s.up.read
            && ToDo(s') < ToDo(s)
  {
    hide WireInv, Received, Take, Decode, EncPacket, ConnectBody, EncConnected, EncAuthResult, Sized, IsVerdict,
        EncFrame, WrapI32;
    hide GetConnected, GetAuthResult, IsReply, Requests, Replies, Wires;
    SuccessFits(0);
    match s.client
    case Start => SmallPackets(0); PutAllSends(s.up, Connect(0));
    case WaitConnected => ConnectSize(s.config, 0);
    case WaitAnswer(q) => AnswerKeepsInv(s, TakeAnswer); SeenIsSeen(s.config.announced.params);
    case Registering(_) =>
    case Authorizing(_) =>
    case WaitAuth(q, _) => WaitingReads(s);
  }

  lemma WaitingReads(s: State)
    requires Healthy(s) && s.client.WaitAuth? && s.client.q in s.answers
    ensures Granted(s.answers[s.client.q])
  {
    hide Wires, Story, EncAuthResult, IsReply, ConnectBody, EncConnected, IsVerdict, Granted;
  }

  lemma SuccessDecodes()
    ensures Granted(EncAuthResult(SUCCESS))
  {
    hide EncAuthResult, GetAuthResult;
    VerdictDecodes(SUCCESS, EncAuthResult(SUCCESS));
  }

  ghost predicate CanFinish(s: State) { exists steps, end :: Runs(s, steps, end) && end.client.Ready? }

  lemma StepThenFinish(s: State, step: Step)
    requires Enabled(s, step) && CanFinish(Apply(s, step))
    ensures CanFinish(s)
  {
    hide Enabled, Apply;
    var steps, end :| Runs(Apply(s, step), steps, end) && end.client.Ready?;
    assert ([step] + steps)[1..] == steps;
    assert Runs(s, [step] + steps, end);
  }

  /** No deadlock: from every healthy state some continuation makes the session Ready. */
  lemma {:induction false} ReadyIsReachable(s: State)
    requires Healthy(s) && Viable(s.config)
    ensures CanFinish(s)
    decreases ToDo(s)
  {
    hide Enabled, Apply, Healthy, ToDo, Viable;
    ToDoIsNatural(s);
    if s.client.Ready? {
      assert Runs(s, [], s);
    } else {
      var step := if s.down.read < |s.down.sent| then ReadDown
                  else if s.up.read < |s.up.sent| then ReadUp(SUCCESS, [])
                  else ClientStep(s);
      BoundedReads(s);
      if s.down.read < |s.down.sent| {
        ReadingGetsNearer(s);
      } else if s.up.read < |s.up.sent| {
        ServingGetsNearer(s);
      } else {
        ActingGetsNearer(s);
      }
      ToDoIsNatural(Apply(s, step));
      ReadyIsReachable(Apply(s, step));
      StepThenFinish(s, step);
    }
  }

  lemma BoundedReads(s: State)
    requires Healthy(s)
    ensures s.down.read <= |s.down.sent| && s.up.read <= |s.up.sent|
  {
    hide Wires, Story, EncAuthResult, IsReply, ConnectBody, EncConnected;
  }

  lemma HealthyInitially(s: State)
    requires Init(s)
    ensures Healthy(s)
  {
    InvInitially(s);
  }

  /** From the start, registering on chain or not, the session can become Ready exactly if the parties can agree. */
  lemma HandshakeCanFinish(start: State)
    requires Init(start)
    ensures (exists steps, end :: Runs(start, steps, end) && end.client.Ready?) <==> Viable(start.config)
  {
    hide Runs, Viable, Inv;
    if Viable(start.config) {
      HealthyInitially(start);
      ReadyIsReachable(start);
    }
    if CanFinish(start) {
      var steps, end :| Runs(start, steps, end) && end.client.Ready?;
      RunsFromStart(start, steps, end);
      ReadyIsViable(end);
    }
  }

  lemma ReadyIsViable(s: State)
    requires Inv(s) && s.client.Ready?
    ensures Viable(s.config)
  {
    hide Wires, Requests, Replies, Waiting, EncConnected;
    SeenIsSeen(s.config.announced.params);
  }

  /** The fake proxy's own announcement is compatible and fits, so only the wallet address can be in the way. */
  lemma FakeProxyIsViable(c: Config)
    requires c.announced == FAKE_CONNECTED
    ensures Shaped(c.announced) && (Viable(c) <==> |c.wallet| <= MAX_FRAME_SIZE - 44)
  {
    hide EncU32, EncU64, EncBytes, EncBool, EncI32, Zeros, Ascii;
    assert |EncConnected(FAKE_CONNECTED)| <= 1000;
  }
}
