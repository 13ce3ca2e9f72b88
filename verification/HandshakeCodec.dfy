/** The messages of the session handshake, and the answers the fake proxy gives. */
module HandshakeCodec {
  import opened Bytes
  import opened TLPrimitives
  import opened TLTypes

  const ID_AUTHORIZE_SHORT: uint32 := 0x6c276723
  const ID_AUTHORIZE_LONG: uint32 := 0xd3474303
  const ID_CONNECTED_TO_PROXY: uint32 := 0x95317ad1
  const ID_AUTH_SUCCESS: uint32 := 0x75d5ac34
  const ID_AUTH_FAILED: uint32 := 0x60551c96
  const ID_CONNECTION_AUTH_SHORT: uint32 := 0xd6ffc5af
  const ID_CONNECTION_AUTH_LONG: uint32 := 0x417bf016
  const ID_SIGNED_PAYMENT: uint32 := 0x02998182
  const ID_SIGNED_PAYMENT_EMPTY: uint32 := 0xb347ce64

  datatype Auth = ShortAuth(hash: seq<byte>, nonce: uint64) | LongAuth(nonce: uint64)
  datatype Payment = NoPayment | Signed(blob: seq<byte>)
  datatype ConnectedToProxy = ConnectedToProxy(params: ProxyParams, clientSC: seq<byte>, auth: Auth, payment: Payment)
  datatype AuthResult = AuthSuccess(payment: Payment, tokensCommitted: int64, maxTokens: int64)
      | AuthFailed(code: int32, message: seq<byte>)

  // ---- layouts -------------------------------------------------------------------------

  function EncAuth(a: Auth): seq<byte> {
    match a
    case ShortAuth(hash, nonce) => EncU32(ID_CONNECTION_AUTH_SHORT) + (hash + EncU64(nonce))
    case LongAuth(nonce) => EncU32(ID_CONNECTION_AUTH_LONG) + EncU64(nonce)
  }

  function EncPayment(p: Payment): seq<byte> {
    match p
    case NoPayment => EncU32(ID_SIGNED_PAYMENT_EMPTY)
    case Signed(blob) => EncU32(ID_SIGNED_PAYMENT) + EncBytes(blob)
  }

  function EncConnected(c: ConnectedToProxy): seq<byte> {
    EncU32(ID_CONNECTED_TO_PROXY) + (EncProxyParams(c.params)
        + (EncBytes(c.clientSC) + (EncAuth(c.auth) + EncPayment(c.payment))))
  }

  function EncAuthResult(a: AuthResult): seq<byte> {
    match a
    case AuthSuccess(p, t, m) => EncU32(ID_AUTH_SUCCESS) + (EncPayment(p) + (EncI64(t) + EncI64(m)))
    case AuthFailed(c, m) => EncU32(ID_AUTH_FAILED) + (EncI32(c) + EncBytes(m))
  }

  // ---- reads ---------------------------------------------------------------------------

  function GetAuth(s: seq<byte>): Parsed<Auth> {
    var (id, t) :- GetU32(s);
    if id == ID_CONNECTION_AUTH_SHORT then
      var (hash, t) :- GetRaw(t, 32);
      var (nonce, t) :- GetU64(t);
      Ok(ShortAuth(hash, nonce), t)
    else if id == ID_CONNECTION_AUTH_LONG then
      var (nonce, t) :- GetU64(t);
      Ok(LongAuth(nonce), t)
    else Err(Rejected, t)
  }

  function GetPayment(s: seq<byte>): Parsed<Payment> {
    var (id, t) :- GetU32(s);
    if id == ID_SIGNED_PAYMENT then
      var (blob, t) :- GetBytes(t);
      Ok(Signed(blob), t)
    else if id == ID_SIGNED_PAYMENT_EMPTY then Ok(NoPayment, t)
    else Err(Rejected, t)
  }

  function GetConnected(s: seq<byte>): Parsed<ConnectedToProxy> {
    var (id, t) :- GetU32(s);
    if id != ID_CONNECTED_TO_PROXY then Err(UnknownConstructor, t)
    else
      var (params, t) :- GetProxyParams(t);
      var (clientSC, t) :- GetBytes(t);
      var (auth, t) :- GetAuth(t);
      var (payment, t) :- GetPayment(t);
      Ok(ConnectedToProxy(params, clientSC, auth, payment), t)
  }

  function GetAuthResult(s: seq<byte>): Parsed<AuthResult> {
    var (id, t) :- GetU32(s);
    if id == ID_AUTH_SUCCESS then GetSuccess(t)
    else if id == ID_AUTH_FAILED then GetRefusal(t)
    else Err(UnknownConstructor, t)
  }

  function GetSuccess(s: seq<byte>): Parsed<AuthResult> {
    var (payment, t) :- GetPayment(s);
    var (tokens, t) :- GetI64(t);
    var (maxTokens, t) :- GetI64(t);
    Ok(AuthSuccess(payment, tokens, maxTokens), t)
  }

  function GetRefusal(s: seq<byte>): Parsed<AuthResult> {
    var (code, t) :- GetI32(s);
    var (message, t) :- GetBytes(t);
    Ok(AuthFailed(code, message), t)
  }

  // ---- round trips ------------------------------------------------------------------------

  ghost predicate EncodablePayment(p: Payment) { p.Signed? ==> |p.blob| < TWO_24 }

  ghost predicate EncodableConnected(c: ConnectedToProxy) {
    && |c.params.publicKey| == 32 && |c.params.owner| < TWO_24 && |c.params.sc| < TWO_24 && |c.clientSC| < TWO_24
    && (c.auth.ShortAuth? ==> |c.auth.hash| == 32) && EncodablePayment(c.payment)
  }

  lemma AuthRoundTrip(a: Auth, rest: seq<byte>)
    requires a.ShortAuth? ==> |a.hash| == 32
    ensures GetAuth(EncAuth(a) + rest) == Ok(a, rest)
  {
    hide EncU32, EncU64, GetU32, GetU64, GetRaw;
    match a
    case ShortAuth(hash, nonce) =>
      Assoc(EncU32(ID_CONNECTION_AUTH_SHORT), hash + EncU64(nonce), rest);
      Assoc(hash, EncU64(nonce), rest);
      U32RoundTrip(ID_CONNECTION_AUTH_SHORT, (hash + EncU64(nonce)) + rest);
      RawRoundTrip(hash, EncU64(nonce) + rest);
      U64RoundTrip(nonce, rest);
    case LongAuth(nonce) =>
      Assoc(EncU32(ID_CONNECTION_AUTH_LONG), EncU64(nonce), rest);
      U32RoundTrip(ID_CONNECTION_AUTH_LONG, EncU64(nonce) + rest);
      U64RoundTrip(nonce, rest);
  }

  lemma PaymentRoundTrip(p: Payment, rest: seq<byte>)
    requires EncodablePayment(p)
    ensures GetPayment(EncPayment(p) + rest) == Ok(p, rest)
  {
    hide EncU32, EncBytes, GetU32, GetBytes;
    match p
    case NoPayment => U32RoundTrip(ID_SIGNED_PAYMENT_EMPTY, rest);
    case Signed(blob) =>
      Assoc(EncU32(ID_SIGNED_PAYMENT), EncBytes(blob), rest);
      U32RoundTrip(ID_SIGNED_PAYMENT, EncBytes(blob) + rest);
      BytesRoundTrip(blob, rest);
  }

  /** Whatever the proxy announces is what the client decodes, fields without their flag as zero. */
  lemma ConnectedRoundTrip(c: ConnectedToProxy, rest: seq<byte>)
    requires EncodableConnected(c)
    ensures GetConnected(EncConnected(c) + rest) == Ok(c.(params := c.params.Seen()), rest)
  {
    hide EncU32, EncBytes, GetU32, GetBytes, EncProxyParams, GetProxyParams, EncAuth, GetAuth, EncPayment, GetPayment;
    var params, sc, auth, payment := EncProxyParams(c.params), EncBytes(c.clientSC), EncAuth(c.auth),
        EncPayment(c.payment);
    Assoc(EncU32(ID_CONNECTED_TO_PROXY), params + (sc + (auth + payment)), rest);
    Assoc(params, sc + (auth + payment), rest);
    Assoc(sc, auth + payment, rest);
    Assoc(auth, payment, rest);
    U32RoundTrip(ID_CONNECTED_TO_PROXY, (params + (sc + (auth + payment))) + rest);
    ProxyParamsRoundTrip(c.params, (sc + (auth + payment)) + rest);
    BytesRoundTrip(c.clientSC, (auth + payment) + rest);
    AuthRoundTrip(c.auth, payment + rest);
    PaymentRoundTrip(c.payment, rest);
  }

  lemma AuthResultRoundTrip(a: AuthResult, rest: seq<byte>)
    requires if a.AuthSuccess? then EncodablePayment(a.payment) else |a.message| < TWO_24
    ensures GetAuthResult(EncAuthResult(a) + rest) == Ok(a, rest)
  {
    hide EncU32, EncBytes, GetU32, GetBytes, EncI32, GetI32, EncI64, GetI64, EncPayment, GetPayment;
    match a
    case AuthSuccess(p, t, m) =>
      Assoc(EncU32(ID_AUTH_SUCCESS), EncPayment(p) + (EncI64(t) + EncI64(m)), rest);
      Assoc(EncPayment(p), EncI64(t) + EncI64(m), rest);
      Assoc(EncI64(t), EncI64(m), rest);
      U32RoundTrip(ID_AUTH_SUCCESS, (EncPayment(p) + (EncI64(t) + EncI64(m))) + rest);
      PaymentRoundTrip(p, (EncI64(t) + EncI64(m)) + rest);
      I64RoundTrip(t, EncI64(m) + rest);
      I64RoundTrip(m, rest);
    case AuthFailed(c, m) =>
      Assoc(EncU32(ID_AUTH_FAILED), EncI32(c) + EncBytes(m), rest);
      Assoc(EncI32(c), EncBytes(m), rest);
      U32RoundTrip(ID_AUTH_FAILED, (EncI32(c) + EncBytes(m)) + rest);
      I32RoundTrip(c, EncBytes(m) + rest);
      BytesRoundTrip(m, rest);
  }

  /** The constructor that opens each message, least significant byte first. */
  lemma MessagesOnTheWire(c: ConnectedToProxy, p: Payment, tokens: int64, more: int64, code: int32, message: seq<byte>)
    ensures EncConnected(c)[..4] == [0xd1, 0x7a, 0x31, 0x95]
    ensures EncAuthResult(AuthSuccess(p, tokens, more))[..4] == [0x34, 0xac, 0xd5, 0x75]
    ensures EncAuthResult(AuthFailed(code, message))[..4] == [0x96, 0x1c, 0x55, 0x60]
  {
    hide EncU32, EncBytes, EncI32, EncI64, EncProxyParams, EncAuth, EncPayment;
    TagFirst(ID_CONNECTED_TO_PROXY, 0xd1, 0x7a, 0x31, 0x95,
             EncProxyParams(c.params) + (EncBytes(c.clientSC) + (EncAuth(c.auth) + EncPayment(c.payment))));
    TagFirst(ID_AUTH_SUCCESS, 0x34, 0xac, 0xd5, 0x75, EncPayment(p) + (EncI64(tokens) + EncI64(more)));
    TagFirst(ID_AUTH_FAILED, 0x96, 0x1c, 0x55, 0x60, EncI32(code) + EncBytes(message));
  }

  lemma PartsOnTheWire(nonce: uint64, hash: seq<byte>, blob: seq<byte>)
    ensures EncAuth(LongAuth(nonce))[..4] == [0x16, 0xf0, 0x7b, 0x41]
    ensures EncAuth(ShortAuth(hash, nonce))[..4] == [0xaf, 0xc5, 0xff, 0xd6]
    ensures EncPayment(NoPayment) == [0x64, 0xce, 0x47, 0xb3]
    ensures EncPayment(Signed(blob))[..4] == [0x82, 0x81, 0x99, 0x02]
    ensures EncU32(ID_AUTHORIZE_LONG) == [0x03, 0x43, 0x47, 0xd3]
    ensures EncU32(ID_AUTHORIZE_SHORT) == [0x23, 0x67, 0x27, 0x6c]
  {
    hide EncU32, EncBytes, EncU64;
    TagFirst(ID_CONNECTION_AUTH_LONG, 0x16, 0xf0, 0x7b, 0x41, EncU64(nonce));
    TagFirst(ID_CONNECTION_AUTH_SHORT, 0xaf, 0xc5, 0xff, 0xd6, hash + EncU64(nonce));
    TagFirst(ID_SIGNED_PAYMENT, 0x82, 0x81, 0x99, 0x02, EncBytes(blob));
    U32Bytes(ID_SIGNED_PAYMENT_EMPTY, 0x64, 0xce, 0x47, 0xb3);
    U32Bytes(ID_AUTHORIZE_LONG, 0x03, 0x43, 0x47, 0xd3);
    U32Bytes(ID_AUTHORIZE_SHORT, 0x23, 0x67, 0x27, 0x6c);
  }

  // ---- decoders and validation as the source runs them -----------------------------------------

  method DecodeConnectedToProxy(answer: seq<byte>) returns (res: Result<ConnectedToProxy>)
    ensures res == GetConnected(answer).Outcome()
  {
    var r := new Reader(answer);
    assert r.Unread() == answer;
    hide GetU32, GetProxyParams, GetBytes, GetAuth, GetPayment, Reader.Unread, Reader.Valid;
    var id :- r.ReadUint32();
    if id != ID_CONNECTED_TO_PROXY {
      return Failure(UnknownConstructor);
    }
    var params :- DecodeProxyParamsBody(r);
    var clientSC :- r.ReadBytes();
    var auth :- DecodeConnectionAuth(r);
    var payment :- DecodeSignedPayment(r);
    return Success(ConnectedToProxy(params, clientSC, auth, payment));
  }

  method DecodeConnectionAuth(r: Reader) returns (res: Result<Auth>)
    requires r.Valid()
    modifies r
    ensures r.Did(res, GetAuth(old(r.Unread())))
  {
    hide GetU32, GetU64, GetRaw, Reader.Unread, Reader.Valid;
    var id :- r.ReadUint32();
    if id == ID_CONNECTION_AUTH_SHORT {
      var hash :- r.ReadRaw(32);
      var nonce :- r.ReadUint64();
      return Success(ShortAuth(hash, nonce));
    }
    if id == ID_CONNECTION_AUTH_LONG {
      var nonce :- r.ReadUint64();
      return Success(LongAuth(nonce));
    }
    return Failure(Rejected);
  }

  method DecodeSignedPayment(r: Reader) returns (res: Result<Payment>)
    requires r.Valid()
    modifies r
    ensures r.Did(res, GetPayment(old(r.Unread())))
  {
    hide GetU32, GetBytes, Reader.Unread, Reader.Valid;
    var id :- r.ReadUint32();
    if id == ID_SIGNED_PAYMENT {
      var blob :- r.ReadBytes();
      return Success(Signed(blob));
    }
    if id == ID_SIGNED_PAYMENT_EMPTY {
      return Success(NoPayment);
    }
    return Failure(Rejected);
  }

  method DecodeAuthorizationWithProxy(answer: seq<byte>) returns (res: Result<AuthResult>)
    ensures res == GetAuthResult(answer).Outcome()
  {
    var r := new Reader(answer);
    assert r.Unread() == answer;
    hide GetU32, GetSuccess, GetRefusal, Reader.Unread, Reader.Valid;
    var id :- r.ReadUint32();
    if id == ID_AUTH_SUCCESS {
      res := DecodeSuccess(r);
    } else if id == ID_AUTH_FAILED {
      res := DecodeRefusal(r);
    } else {
      res := Failure(UnknownConstructor);
    }
  }

  method DecodeSuccess(r: Reader) returns (res: Result<AuthResult>)
    requires r.Valid()
    modifies r
    ensures r.Did(res, GetSuccess(old(r.Unread())))
  {
    hide GetI64, GetPayment, Reader.Unread, Reader.Valid;
    var payment :- DecodeSignedPayment(r);
    var tokens :- r.ReadInt64();
    var maxTokens :- r.ReadInt64();
    return Success(AuthSuccess(payment, tokens, maxTokens));
  }

  method DecodeRefusal(r: Reader) returns (res: Result<AuthResult>)
    requires r.Valid()
    modifies r
    ensures r.Did(res, GetRefusal(old(r.Unread())))
  {
    hide GetI32, GetBytes, Reader.Unread, Reader.Valid;
    var code :- r.ReadInt32();
    var message :- r.ReadBytes();
    return Success(AuthFailed(code, message));
  }

  datatype Verdict = Accepted | TooOld | TestModeMismatch | ProtocolMismatch

  /** What the client can work with: a peer that states its mode or protocol, main network, protocols 1 to 4. */
  predicate Compatible(p: ProxyParams) {
    && (p.HasIsTest() || p.HasProtoVersion())
    && !p.Seen().isTest
    && (p.HasProtoVersion() ==> p.Seen().proto in {1, 2, 3, 4})
  }

  function Validate(p: ProxyParams): (v: Verdict)
    ensures v == Accepted <==> Compatible(p)
    ensures v == TestModeMismatch <==> p.Seen().isTest
    ensures v == TooOld <==> !p.HasIsTest() && !p.HasProtoVersion()
  {
    if p.flags % 4 == 0 then TooOld
    else if p.HasIsTest() && p.isTest then TestModeMismatch
    else if p.HasProtoVersion() && (p.proto < 1 || p.proto > 4) then ProtocolMismatch
    else Accepted
  }

  // ---- the fake proxy's answers ------------------------------------------------------------

  function Ascii(s: string): (b: seq<byte>)
    ensures |b| == |s|
  {
    seq(|s|, i requires 0 <= i < |s| => s[i] as int % 256)
  }

  const REAL_ADDR: seq<byte> := Ascii("EQCns7bYSp0igFvS1wpb5wsZjCKCV19MD5AVzI4EyxsnU73k")

  const FAKE_CONNECTED := ConnectedToProxy(
    ProxyParams(3, Zeros(32), REAL_ADDR, REAL_ADDR, false, 3), REAL_ADDR, LongAuth(0xdeadbeefcafe), NoPayment)

  method WriteFakeParams(w: Writer)
    modifies w
    ensures w.buf == old(w.buf) + EncProxyParams(FAKE_CONNECTED.params)
  {
    hide EncU32, EncI32, EncBytes, EncBool, Zeros, Ascii;
    w.WriteUint32(3);
    w.WriteRaw(Zeros(32));
    w.WriteBytes(REAL_ADDR);
    w.WriteBytes(REAL_ADDR);
    w.WriteBool(false);
    w.WriteInt32(3);
    assert FAKE_CONNECTED.params.HasIsTest() && FAKE_CONNECTED.params.HasProtoVersion();
    Flatten(old(w.buf), EncU32(3), Zeros(32), EncBytes(REAL_ADDR), EncBytes(REAL_ADDR), EncBool(false), EncI32(3));
  }

  /** The answer to client.connectToProxy, written field by field. */
  method SynthesizeConnected() returns (answer: seq<byte>)
    ensures answer == EncConnected(FAKE_CONNECTED)
    ensures var addr := Ascii("EQCns7bYSp0igFvS1wpb5wsZjCKCV19MD5AVzI4EyxsnU73k");
            FAKE_CONNECTED == ConnectedToProxy(ProxyParams(3, Zeros(32), addr, addr, false, 3), addr,
                                               LongAuth(0xdeadbeefcafe), NoPayment)
  {
    hide EncU32, EncU64, EncBytes, EncProxyParams;
    var w := new Writer();
    w.WriteUint32(ID_CONNECTED_TO_PROXY);
    WriteFakeParams(w);
    w.WriteBytes(REAL_ADDR);
    w.WriteUint32(ID_CONNECTION_AUTH_LONG);
    w.WriteUint64(0xdeadbeefcafe);
    w.WriteUint32(ID_SIGNED_PAYMENT_EMPTY);
    Regroup(EncU32(ID_CONNECTED_TO_PROXY), EncProxyParams(FAKE_CONNECTED.params), EncBytes(REAL_ADDR),
            EncU32(ID_CONNECTION_AUTH_LONG), EncU64(0xdeadbeefcafe), EncU32(ID_SIGNED_PAYMENT_EMPTY));
    return w.buf;
  }

  lemma Flatten<T>(h: seq<T>, a: seq<T>, b: seq<T>, c: seq<T>, d: seq<T>, e: seq<T>, f: seq<T>)
    ensures h + a + b + c + d + e + f == h + (a + (b + (c + (d + (e + f)))))
  {
    Assoc(h + a + b + c + d, e, f);
    Assoc(h + a + b + c, d, e + f);
    Assoc(h + a + b, c, d + (e + f));
    Assoc(h + a, b, c + (d + (e + f)));
    Assoc(h, a, b + (c + (d + (e + f))));
  }

  lemma Regroup<T>(h: seq<T>, a: seq<T>, b: seq<T>, c: seq<T>, d: seq<T>, e: seq<T>)
    ensures h + a + b + c + d + e == h + (a + (b + ((c + d) + e)))
  {
    Assoc(h + a + b, c, d);
    Assoc(h + a + b, c + d, e);
    Assoc(h + a, b, (c + d) + e);
    Assoc(h, a, b + ((c + d) + e));
  }

  method SynthesizeAuth(success: bool, code: int32, message: seq<byte>) returns (answer: seq<byte>)
    ensures answer == EncAuthResult(if success then AuthSuccess(NoPayment, 0, 1000000) else AuthFailed(code, message))
  {
    hide EncU32, EncI64, EncI32, EncBytes;
    var w := new Writer();
    if success {
      w.WriteUint32(ID_AUTH_SUCCESS);
      w.WriteUint32(ID_SIGNED_PAYMENT_EMPTY);
      w.WriteInt64(0);
      w.WriteInt64(1000000);
    } else {
      w.WriteUint32(ID_AUTH_FAILED);
      w.WriteInt32(code);
      w.WriteBytes(message);
    }
    return w.buf;
  }
}
