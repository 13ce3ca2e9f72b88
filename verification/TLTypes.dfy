/** Vectors and the flag-gated records of the schema, with their encoders and decoders. */
module TLTypes {
  import opened Bytes
  import opened TLPrimitives

  const ID_CLIENT_CONNECT_TO_PROXY: uint32 := 0xff5fa0f4
  const ID_CLIENT_PARAMS: uint32 := 0x40fdca64

  datatype ClientParams = ClientParams(flags: uint32, ownerAddr: seq<byte>, isTest: bool, minProto: int32,
      maxProto: int32)
  {
    predicate HasIsTest() { flags % 2 == 1 }
    predicate HasProtoVersion() { flags / 2 % 2 == 1 }
    /** The record a peer sees: fields whose flag is off are not on the wire and read as zero. */
    function Seen(): ClientParams {
      ClientParams(flags, ownerAddr, HasIsTest() && isTest,
                   if HasProtoVersion() then minProto else 0, if HasProtoVersion() then maxProto else 0)
    }
  }

  datatype ProxyParams = ProxyParams(flags: uint32, publicKey: seq<byte>, owner: seq<byte>, sc: seq<byte>,
      isTest: bool, proto: int32)
  {
    predicate HasIsTest() { flags % 2 == 1 }
    predicate HasProtoVersion() { flags / 2 % 2 == 1 }
    function Seen(): ProxyParams {
      ProxyParams(flags, publicKey, owner, sc, HasIsTest() && isTest, if HasProtoVersion() then proto else 0)
    }
  }

  datatype TokensUsed = TokensUsed(prompt: int64, cached: int64, completion: int64, reasoning: int64, total: int64)

  // ---- layouts -------------------------------------------------------------------------

  function EncClientParams(p: ClientParams): seq<byte> {
    EncU32(p.flags) + (EncBytes(p.ownerAddr) +
    ((if p.HasIsTest() then EncBool(p.isTest) else []) +
    (if p.HasProtoVersion() then EncI32(p.minProto) + EncI32(p.maxProto) else [])))
  }

  function EncProxyParams(p: ProxyParams): seq<byte> {
    EncU32(p.flags) + (p.publicKey + (EncBytes(p.owner) + (EncBytes(p.sc) +
    ((if p.HasIsTest() then EncBool(p.isTest) else []) +
    (if p.HasProtoVersion() then EncI32(p.proto) else [])))))
  }

  function EncTokens(t: TokensUsed): seq<byte> {
    EncI64(t.prompt) + (EncI64(t.cached) + (EncI64(t.completion) + (EncI64(t.reasoning) + EncI64(t.total))))
  }

  function EncBytesList(items: seq<seq<byte>>): (s: seq<byte>)
    ensures |s| % 4 == 0
  {
    if items == [] then [] else EncBytes(items[0]) + EncBytesList(items[1..])
  }

  function EncRawList(items: seq<seq<byte>>): seq<byte> {
    if items == [] then [] else items[0] + EncRawList(items[1..])
  }

  // ---- reads ---------------------------------------------------------------------------

  function GetClientParams(s: seq<byte>): Parsed<ClientParams> {
    var (flags, t) :- GetU32(s);
    var shape := ClientParams(flags, [], false, 0, 0);
    var (addr, t) :- GetBytes(t);
    var (isTest, t) :- if shape.HasIsTest() then GetBool(t) else Ok(false, t);
    var (lo, t) :- if shape.HasProtoVersion() then GetI32(t) else Ok(0, t);
    var (hi, t) :- if shape.HasProtoVersion() then GetI32(t) else Ok(0, t);
    Ok(ClientParams(flags, addr, isTest, lo, hi), t)
  }

  function GetProxyParams(s: seq<byte>): Parsed<ProxyParams> {
    var (flags, t) :- GetU32(s);
    var shape := ProxyParams(flags, [], [], [], false, 0);
    var (key, t) :- GetRaw(t, 32);
    var (owner, t) :- GetBytes(t);
    var (sc, t) :- GetBytes(t);
    var (isTest, t) :- if shape.HasIsTest() then GetBool(t) else Ok(false, t);
    var (proto, t) :- if shape.HasProtoVersion() then GetI32(t) else Ok(0, t);
    Ok(ProxyParams(flags, key, owner, sc, isTest, proto), t)
  }

  function GetTokens(s: seq<byte>): Parsed<TokensUsed> {
    var (a, t) :- GetI64(s);
    var (b, t) :- GetI64(t);
    var (c, t) :- GetI64(t);
    var (d, t) :- GetI64(t);
    var (e, t) :- GetI64(t);
    Ok(TokensUsed(a, b, c, d, e), t)
  }

  function GetBytesList(s: seq<byte>, n: nat): Parsed<seq<seq<byte>>>
    decreases n
  {
    if n == 0 then Ok([], s)
    else
      var (b, t) :- GetBytes(s);
      var (more, t) :- GetBytesList(t, n - 1);
      Ok([b] + more, t)
  }

  function GetRawList(s: seq<byte>, n: nat): Parsed<seq<seq<byte>>>
    decreases n
  {
    if n == 0 then Ok([], s)
    else
      var (b, t) :- GetRaw(s, 32);
      var (more, t) :- GetRawList(t, n - 1);
      Ok([b] + more, t)
  }

  // ---- typed fields ----------------------------------------------------------------------

  datatype Type =
    | TInt | TUint | TLong | TUlong | TRaw(size: nat) | TBool | TBytes
    | TBytesVector | TInt256Vector | TClientParams | TProxyParams | TTokens

  datatype Field =
    | Int(i: int32) | Uint(u: uint32) | Long(l: int64) | Ulong(ul: uint64)
    | Raw(raw: seq<byte>) | Boolean(b: bool) | Blob(blob: seq<byte>)
    | BytesVector(blobs: seq<seq<byte>>) | Int256Vector(raws: seq<seq<byte>>)
    | Client(client: ClientParams) | Proxy(proxy: ProxyParams) | Tokens(tokens: TokensUsed)
  {
    function Type(): Type {
      match this
      case Int(_) => TInt
      case Uint(_) => TUint
      case Long(_) => TLong
      case Ulong(_) => TUlong
      case Raw(r) => TRaw(|r|)
      case Boolean(_) => TBool
      case Blob(_) => TBytes
      case BytesVector(_) => TBytesVector
      case Int256Vector(_) => TInt256Vector
      case Client(_) => TClientParams
      case Proxy(_) => TProxyParams
      case Tokens(_) => TTokens
    }

    /** Byte strings below 2^24, counts below 2^32, int128/int256 of their fixed width. */
    ghost predicate Encodable() {
      match this
      case Raw(r) => |r| == 16 || |r| == 32
      case Blob(b) => |b| < TWO_24
      case BytesVector(v) => |v| < TWO_32 && forall i :: 0 <= i < |v| ==> |v[i]| < TWO_24
      case Int256Vector(v) => |v| < TWO_32 && forall i :: 0 <= i < |v| ==> |v[i]| == 32
      case Client(c) => |c.ownerAddr| < TWO_24
      case Proxy(p) => |p.publicKey| == 32 && |p.owner| < TWO_24 && |p.sc| < TWO_24
      case _ => true
    }

    function Seen(): Field {
      match this
      case Client(c) => Client(c.Seen())
      case Proxy(p) => Proxy(p.Seen())
      case _ => this
    }

    function Enc(): seq<byte> {
      match this
      case Int(v) => EncI32(v)
      case Uint(v) => EncU32(v)
      case Long(v) => EncI64(v)
      case Ulong(v) => EncU64(v)
      case Raw(r) => r
      case Boolean(v) => EncBool(v)
      case Blob(v) => EncBytes(v)
      case BytesVector(v) => EncU32(|v| % TWO_32) + EncBytesList(v)
      case Int256Vector(v) => EncU32(|v| % TWO_32) + EncRawList(v)
      case Client(c) => EncClientParams(c)
      case Proxy(p) => EncProxyParams(p)
      case Tokens(t) => EncTokens(t)
    }
  }

  function GetField(ty: Type, s: seq<byte>): Parsed<Field> {
    match ty
    case TInt => var (v, t) :- GetI32(s); Ok(Int(v), t)
    case TUint => var (v, t) :- GetU32(s); Ok(Uint(v), t)
    case TLong => var (v, t) :- GetI64(s); Ok(Long(v), t)
    case TUlong => var (v, t) :- GetU64(s); Ok(Ulong(v), t)
    case TRaw(n) => var (v, t) :- GetRaw(s, n); Ok(Raw(v), t)
    case TBool => var (v, t) :- GetBool(s); Ok(Boolean(v), t)
    case TBytes => var (v, t) :- GetBytes(s); Ok(Blob(v), t)
    case TBytesVector =>
      var (n, t) :- GetU32(s);
      var (v, t) :- GetBytesList(t, n);
      Ok(BytesVector(v), t)
    case TInt256Vector =>
      var (n, t) :- GetU32(s);
      var (v, t) :- GetRawList(t, n);
      Ok(Int256Vector(v), t)
    case TClientParams => var (v, t) :- GetClientParams(s); Ok(Client(v), t)
    case TProxyParams => var (v, t) :- GetProxyParams(s); Ok(Proxy(v), t)
    case TTokens => var (v, t) :- GetTokens(s); Ok(Tokens(v), t)
  }

  function EncFields(fs: seq<Field>): seq<byte> {
    if fs == [] then [] else fs[0].Enc() + EncFields(fs[1..])
  }

  function GetFields(ts: seq<Type>, s: seq<byte>): Parsed<seq<Field>>
    decreases |ts|
  {
    if ts == [] then Ok([], s)
    else
      var (f, t) :- GetField(ts[0], s);
      var (fs, t) :- GetFields(ts[1..], t);
      Ok([f] + fs, t)
  }

  ghost predicate AllEncodable(fs: seq<Field>) {
    forall i :: 0 <= i < |fs| ==> fs[i].Encodable()
  }

  function Types(fs: seq<Field>): (ts: seq<Type>)
    ensures |ts| == |fs|
  {
    if fs == [] then [] else [fs[0].Type()] + Types(fs[1..])
  }

  function AllSeen(fs: seq<Field>): (ss: seq<Field>)
    ensures |ss| == |fs|
  {
    if fs == [] then [] else [fs[0].Seen()] + AllSeen(fs[1..])
  }

  /** Bit 0 of the flags gates the test mode, bit 1 the protocol versions. */
  lemma FlagBits(c: ClientParams, p: ProxyParams)
    ensures c.HasIsTest() <==> c.flags % 4 == 1 || c.flags % 4 == 3
    ensures c.HasProtoVersion() <==> c.flags % 4 >= 2
    ensures p.HasIsTest() <==> p.flags % 4 == 1 || p.flags % 4 == 3
    ensures p.HasProtoVersion() <==> p.flags % 4 >= 2
  {
    LowBits(c.flags);
    LowBits(p.flags);
  }

  lemma LowBits(n: nat)
    ensures n % 2 == 1 <==> n % 4 == 1 || n % 4 == 3
    ensures n / 2 % 2 == 1 <==> n % 4 >= 2
  {
    var q, r := n / 4, n % 4;
    assert n == 4 * q + r;
    assert n / 2 == 2 * q + r / 2;
  }

  /** The constructors of the connect call and of boxed client parameters, least significant byte first. */
  lemma CallsOnTheWire()
    ensures EncU32(ID_CLIENT_CONNECT_TO_PROXY) == [0xf4, 0xa0, 0x5f, 0xff]
    ensures EncU32(ID_CLIENT_PARAMS) == [0x64, 0xca, 0xfd, 0x40]
  {
    hide EncU32;
    U32Bytes(ID_CLIENT_CONNECT_TO_PROXY, 0xf4, 0xa0, 0x5f, 0xff);
    U32Bytes(ID_CLIENT_PARAMS, 0x64, 0xca, 0xfd, 0x40);
  }

  // ---- round trips ------------------------------------------------------------------------

  lemma ClientParamsRoundTrip(c: ClientParams, rest: seq<byte>)
    requires |c.ownerAddr| < TWO_24
    ensures GetClientParams(EncClientParams(c) + rest) == Ok(c.Seen(), rest)
    ensures |EncClientParams(c)| % 4 == 0
  {
    hide EncU32, EncBytes, EncBool, EncI32, GetU32, GetBytes, GetBool, GetI32, GetRaw;
    var flags, addr := EncU32(c.flags), EncBytes(c.ownerAddr);
    var test := if c.HasIsTest() then EncBool(c.isTest) else [];
    var proto := if c.HasProtoVersion() then EncI32(c.minProto) + EncI32(c.maxProto) else [];
    Assoc(flags, addr + (test + proto), rest);
    Assoc(addr, test + proto, rest);
    Assoc(test, proto, rest);
    U32RoundTrip(c.flags, (addr + (test + proto)) + rest);
    BytesRoundTrip(c.ownerAddr, (test + proto) + rest);
    BoolRoundTrip(c.isTest, proto + rest);
    Assoc(EncI32(c.minProto), EncI32(c.maxProto), rest);
    I32RoundTrip(c.minProto, EncI32(c.maxProto) + rest);
    I32RoundTrip(c.maxProto, rest);
    assert [] + (proto + rest) == proto + rest && [] + rest == rest;
  }

  lemma ProxyParamsRoundTrip(c: ProxyParams, rest: seq<byte>)
    requires |c.publicKey| == 32 && |c.owner| < TWO_24 && |c.sc| < TWO_24
    ensures GetProxyParams(EncProxyParams(c) + rest) == Ok(c.Seen(), rest)
    ensures |EncProxyParams(c)| % 4 == 0
  {
    hide EncU32, EncBytes, EncBool, EncI32, GetU32, GetBytes, GetBool, GetI32, GetRaw;
    var flags, owner, sc := EncU32(c.flags), EncBytes(c.owner), EncBytes(c.sc);
    var test := if c.HasIsTest() then EncBool(c.isTest) else [];
    var proto := if c.HasProtoVersion() then EncI32(c.proto) else [];
    Assoc(flags, c.publicKey + (owner + (sc + (test + proto))), rest);
    Assoc(c.publicKey, owner + (sc + (test + proto)), rest);
    Assoc(owner, sc + (test + proto), rest);
    Assoc(sc, test + proto, rest);
    Assoc(test, proto, rest);
    U32RoundTrip(c.flags, (c.publicKey + (owner + (sc + (test + proto)))) + rest);
    RawRoundTrip(c.publicKey, (owner + (sc + (test + proto))) + rest);
    BytesRoundTrip(c.owner, (sc + (test + proto)) + rest);
    BytesRoundTrip(c.sc, (test + proto) + rest);
    BoolRoundTrip(c.isTest, proto + rest);
    I32RoundTrip(c.proto, rest);
    assert [] + (proto + rest) == proto + rest && [] + rest == rest;
  }

  lemma TokensRoundTrip(t: TokensUsed, rest: seq<byte>)
    ensures GetTokens(EncTokens(t) + rest) == Ok(t, rest)
  {
    hide EncI64, GetI64;
    var a, b, c, d, e := EncI64(t.prompt), EncI64(t.cached), EncI64(t.completion), EncI64(t.reasoning), EncI64(t.total);
    Assoc(a, b + (c + (d + e)), rest);
    Assoc(b, c + (d + e), rest);
    Assoc(c, d + e, rest);
    Assoc(d, e, rest);
    I64RoundTrip(t.prompt, (b + (c + (d + e))) + rest);
    I64RoundTrip(t.cached, (c + (d + e)) + rest);
    I64RoundTrip(t.completion, (d + e) + rest);
    I64RoundTrip(t.reasoning, e + rest);
    I64RoundTrip(t.total, rest);
  }

  lemma {:induction false} BytesListRoundTrip(v: seq<seq<byte>>, rest: seq<byte>)
    requires forall i :: 0 <= i < |v| ==> |v[i]| < TWO_24
    ensures GetBytesList(EncBytesList(v) + rest, |v|) == Ok(v, rest)
    decreases |v|
  {
    hide EncBytes, GetBytes;
    if v == [] {
      assert [] + rest == rest;
    } else {
      assert [v[0]] + v[1..] == v;
      Assoc(EncBytes(v[0]), EncBytesList(v[1..]), rest);
      BytesRoundTrip(v[0], EncBytesList(v[1..]) + rest);
      BytesListRoundTrip(v[1..], rest);
    }
  }

  lemma StillAligned(a: nat, b: nat)
    requires a % 4 == 0 && b % 4 == 0
    ensures (a + b) % 4 == 0
  {
  }

  lemma {:induction false} RawListRoundTrip(v: seq<seq<byte>>, rest: seq<byte>)
    requires forall i :: 0 <= i < |v| ==> |v[i]| == 32
    ensures GetRawList(EncRawList(v) + rest, |v|) == Ok(v, rest)
    ensures |EncRawList(v)| % 4 == 0
    decreases |v|
  {
    hide GetRaw;
    if v == [] {
      assert [] + rest == rest;
    } else {
      assert [v[0]] + v[1..] == v;
      Assoc(v[0], EncRawList(v[1..]), rest);
      RawRoundTrip(v[0], EncRawList(v[1..]) + rest);
      RawListRoundTrip(v[1..], rest);
      StillAligned(32, |EncRawList(v[1..])|);
    }
  }

  lemma CountFits(n: nat)
    requires n < TWO_32
    ensures n % TWO_32 == n
  {
  }

  lemma BytesVectorRoundTrip(v: seq<seq<byte>>, rest: seq<byte>)
    requires BytesVector(v).Encodable()
    ensures GetField(TBytesVector, BytesVector(v).Enc() + rest) == Ok(BytesVector(v), rest)
    ensures |BytesVector(v).Enc()| % 4 == 0
  {
    hide EncU32, EncBytesList, GetU32, GetBytesList;
    CountFits(|v|);
    Assoc(EncU32(|v|), EncBytesList(v), rest);
    U32RoundTrip(|v|, EncBytesList(v) + rest);
    BytesListRoundTrip(v, rest);
  }

  lemma Int256VectorRoundTrip(v: seq<seq<byte>>, rest: seq<byte>)
    requires Int256Vector(v).Encodable()
    ensures GetField(TInt256Vector, Int256Vector(v).Enc() + rest) == Ok(Int256Vector(v), rest)
    ensures |Int256Vector(v).Enc()| % 4 == 0
  {
    hide EncU32, EncRawList, GetU32, GetRawList;
    CountFits(|v|);
    Assoc(EncU32(|v|), EncRawList(v), rest);
    U32RoundTrip(|v|, EncRawList(v) + rest);
    RawListRoundTrip(v, rest);
  }

  lemma FieldRoundTrip(f: Field, rest: seq<byte>)
    requires f.Encodable()
    ensures GetField(f.Type(), f.Enc() + rest) == Ok(f.Seen(), rest)
    ensures |f.Enc()| % 4 == 0
  {
    hide EncU32, EncU64, EncI32, EncI64, EncBytes, EncBool, EncBytesList, EncRawList, EncClientParams, EncProxyParams;
    hide GetU32, GetU64, GetI32, GetI64, GetBytes, GetBool, GetRaw, GetBytesList, GetRawList, GetClientParams,
        GetProxyParams;
    hide GetTokens;
    match f
    case Int(v) => I32RoundTrip(v, rest);
    case Uint(v) => U32RoundTrip(v, rest);
    case Long(v) => I64RoundTrip(v, rest);
    case Ulong(v) => U64RoundTrip(v, rest);
    case Raw(v) => RawRoundTrip(v, rest);
    case Boolean(v) => BoolRoundTrip(v, rest);
    case Blob(v) => BytesRoundTrip(v, rest);
    case BytesVector(v) => BytesVectorRoundTrip(v, rest);
    case Int256Vector(v) => Int256VectorRoundTrip(v, rest);
    case Client(c) => ClientParamsRoundTrip(c, rest);
    case Proxy(c) => ProxyParamsRoundTrip(c, rest);
    case Tokens(t) => TokensRoundTrip(t, rest);
  }

  /**
   Whatever fields were written one after the other, reading the same types back yields the
   values and stops exactly where the encoding ends, a multiple of four bytes further on.
   */
  lemma {:induction false} FieldsRoundTrip(fs: seq<Field>, rest: seq<byte>)
    requires AllEncodable(fs)
    ensures GetFields(Types(fs), EncFields(fs) + rest) == Ok(AllSeen(fs), rest)
    ensures |EncFields(fs)| % 4 == 0
    decreases |fs|
  {
    hide GetField, Field.Enc, Field.Encodable;
    if fs == [] {
      assert [] + rest == rest;
    } else {
      Assoc(fs[0].Enc(), EncFields(fs[1..]), rest);
      FieldRoundTrip(fs[0], EncFields(fs[1..]) + rest);
      FieldsRoundTrip(fs[1..], rest);
    }
  }

  /** So encodings of one list of types are prefix-free: they can follow each other unmarked. */
  lemma EncodingsArePrefixFree(fs: seq<Field>, gs: seq<Field>, fRest: seq<byte>, gRest: seq<byte>)
    requires AllEncodable(fs) && AllEncodable(gs) && Types(fs) == Types(gs)
    requires EncFields(fs) + fRest == EncFields(gs) + gRest
    ensures AllSeen(fs) == AllSeen(gs) && fRest == gRest
  {
    hide *;
    FieldsRoundTrip(fs, fRest);
    FieldsRoundTrip(gs, gRest);
  }

  // ---- the encoders and decoders over Writer and Reader -------------------------------------

  method WriteVectorBytes(w: Writer, items: seq<seq<byte>>)
    modifies w
    ensures w.buf == old(w.buf) + BytesVector(items).Enc()
  {
    hide EncBytes, EncU32;
    w.WriteUint32(|items| % TWO_32);
    ghost var goal := w.buf + EncBytesList(items);
    Assoc(old(w.buf), EncU32(|items| % TWO_32), EncBytesList(items));
    assert items[0..] == items;
    for i := 0 to |items|
      invariant w.buf + EncBytesList(items[i..]) == goal
    {
      assert items[i..][1..] == items[i + 1..];
      Assoc(w.buf, EncBytes(items[i]), EncBytesList(items[i + 1..]));
      w.WriteBytes(items[i]);
    }
    assert items[|items|..] == [];
  }

  method ReadVectorBytes(r: Reader) returns (res: Result<seq<seq<byte>>>)
    requires r.Valid()
    modifies r
    ensures r.Did(res, var spec := GetField(TBytesVector, old(r.Unread()));
                       if spec.Ok? then Ok(spec.value.blobs, spec.rest) else Err(spec.error, spec.rest))
  {
    hide GetBytes, GetU32;
    var n :- r.ReadUint32();
    ghost var all := GetBytesList(r.Unread(), n);
    var out: seq<seq<byte>> := [];
    assert all.Ok? ==> [] + all.value == all.value;
    for i := 0 to n
      invariant r.Valid() && |out| == i
      invariant all == Prepend(out, GetBytesList(r.Unread(), n - i))
    {
      var b :- r.ReadBytes();
      PrependOne(out, b, GetBytesList(r.Unread(), n - i - 1));
      out := out + [b];
    }
    assert GetBytesList(r.Unread(), 0) == Ok([], r.Unread());
    assert out + [] == out;
    return Success(out);
  }

  ghost function Prepend<T>(done: seq<T>, p: Parsed<seq<T>>): (q: Parsed<seq<T>>)
  {
    if p.Ok? then Ok(done + p.value, p.rest) else p
  }

  lemma PrependOne<T>(done: seq<T>, x: T, p: Parsed<seq<T>>)
    ensures Prepend(done, Prepend([x], p)) == Prepend(done + [x], p)
  {
    if p.Ok? {
      Assoc(done, [x], p.value);
    }
  }

  method EncodeClientParams(p: ClientParams, w: Writer, boxed: bool)
    modifies w
    ensures w.buf == old(w.buf) + (if boxed then EncU32(ID_CLIENT_PARAMS) else []) + EncClientParams(p)
  {
    hide EncU32, EncBytes, EncBool, EncI32;
    if boxed {
      w.WriteUint32(ID_CLIENT_PARAMS);
    }
    ghost var start := w.buf;
    w.WriteUint32(p.flags);
    w.WriteBytes(p.ownerAddr);
    ghost var middle := w.buf;
    if p.HasIsTest() {
      w.WriteBool(p.isTest);
    }
    if p.HasProtoVersion() {
      w.WriteInt32(p.minProto);
      w.WriteInt32(p.maxProto);
    }
    ghost var test := if p.HasIsTest() then EncBool(p.isTest) else [];
    ghost var proto := if p.HasProtoVersion() then EncI32(p.minProto) + EncI32(p.maxProto) else [];
    assert w.buf == middle + (test + proto);
    Assoc(start + EncU32(p.flags), EncBytes(p.ownerAddr), test + proto);
    Assoc(start, EncU32(p.flags), EncBytes(p.ownerAddr) + (test + proto));
  }

  method DecodeClientParamsBody(r: Reader) returns (res: Result<ClientParams>)
    requires r.Valid()
    modifies r
    ensures r.Did(res, GetClientParams(old(r.Unread())))
  {
    hide GetU32, GetBytes, GetBool, GetI32, Reader.Unread, Reader.Valid;
    var flags :- r.ReadUint32();
    var p := ClientParams(flags, [], false, 0, 0);
    var addr :- r.ReadBytes();
    p := p.(ownerAddr := addr);
    if p.HasIsTest() {
      var t :- r.ReadBool();
      p := p.(isTest := t);
    }
    if p.HasProtoVersion() {
      var lo :- r.ReadInt32();
      p := p.(minProto := lo);
      var hi :- r.ReadInt32();
      p := p.(maxProto := hi);
    }
    return Success(p);
  }

  method DecodeProxyParamsBody(r: Reader) returns (res: Result<ProxyParams>)
    requires r.Valid()
    modifies r
    ensures r.Did(res, GetProxyParams(old(r.Unread())))
  {
    hide GetU32, GetRaw, GetBytes, GetBool, GetI32, Reader.Unread, Reader.Valid;
    var flags :- r.ReadUint32();
    var p := ProxyParams(flags, [], [], [], false, 0);
    var key :- r.ReadRaw(32);
    var owner :- r.ReadBytes();
    var sc :- r.ReadBytes();
    p := p.(publicKey := key, owner := owner, sc := sc);
    if p.HasIsTest() {
      var t :- r.ReadBool();
      p := p.(isTest := t);
    }
    if p.HasProtoVersion() {
      var v :- r.ReadInt32();
      p := p.(proto := v);
    }
    return Success(p);
  }

  method DecodeTokensUsed(r: Reader) returns (res: Result<TokensUsed>)
    requires r.Valid()
    modifies r
    ensures r.Did(res, GetTokens(old(r.Unread())))
  {
    var a :- r.ReadInt64();
    var b :- r.ReadInt64();
    var c :- r.ReadInt64();
    var d :- r.ReadInt64();
    var e :- r.ReadInt64();
    return Success(TokensUsed(a, b, c, d, e));
  }

  /** The generic encoder of the call, from its record. */
  method EncodeConnectCall(params: ClientParams, minConfigVersion: int32) returns (body: seq<byte>)
    ensures body == EncU32(ID_CLIENT_CONNECT_TO_PROXY) + EncClientParams(params) + EncI32(minConfigVersion)
  {
    hide EncU32, EncClientParams, EncI32;
    var w := new Writer();
    w.WriteUint32(ID_CLIENT_CONNECT_TO_PROXY);
    EncodeClientParams(params, w, false);
    w.WriteInt32(minConfigVersion);
    return w.buf;
  }

  /** The handshake's hand-rolled encoder writes the same bytes as the record's encoder. */
  method EncodeClientConnectToProxy(walletAddr: seq<byte>, rootConfigVersion: int32) returns (body: seq<byte>)
    ensures body == EncU32(ID_CLIENT_CONNECT_TO_PROXY) + EncClientParams(ClientParams(3, walletAddr, false, 1, 4)) +
                    EncI32(rootConfigVersion)
  {
    hide EncU32, EncBytes, EncBool, EncI32;
    var w := new Writer();
    w.WriteUint32(ID_CLIENT_CONNECT_TO_PROXY);
    w.WriteUint32(3);
    w.WriteBytes(walletAddr);
    w.WriteBool(false);
    w.WriteInt32(1);
    w.WriteInt32(4);
    w.WriteInt32(rootConfigVersion);
    var params := ClientParams(3, walletAddr, false, 1, 4);
    assert params.HasIsTest() && params.HasProtoVersion();
    assert w.buf == EncU32(ID_CLIENT_CONNECT_TO_PROXY) +
                    (EncU32(3) + (EncBytes(walletAddr) + (EncBool(false) + (EncI32(1) + EncI32(4)))))
                        + EncI32(rootConfigVersion);
    return w.buf;
  }
}
