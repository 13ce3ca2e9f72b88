/**
 The TL primitive codec: byte layouts as functions, and the cursor and buffer classes that
 work on them. Go strings are byte sequences, so `string` fields are `seq<byte>` throughout.
 */
module TLPrimitives {
  import opened Bytes

  datatype Error = ShortBuffer | InvalidBool | InvalidLength | UnknownConstructor | Rejected

  /** The error-returning convention of the source: a value or an error. */
  datatype Result<+T> = Success(value: T) | Failure(error: Error) {
    predicate IsFailure() { Failure? }
    function PropagateFailure<U>(): Result<U> requires Failure? { Failure(error) }
    function Extract(): T requires Success? { value }
  }

  /** What a read of the unread bytes yields, together with the bytes it leaves unread. */
  datatype Parsed<+T> = Ok(value: T, rest: seq<byte>) | Err(error: Error, rest: seq<byte>) {
    predicate IsFailure() { Err? }
    function PropagateFailure<U>(): Parsed<U> requires Err? { Err(error, rest) }
    function Extract(): (T, seq<byte>) requires Ok? { (value, rest) }
    function Outcome(): Result<T> { if Ok? then Success(value) else Failure(error) }
  }

  const BOOL_FALSE: uint32 := 0xbc799737
  const BOOL_TRUE: uint32 := 0x997275b5

  // ---- layouts -------------------------------------------------------------------------

  function EncU32(v: uint32): (s: seq<byte>) ensures |s| == 4 { LE(v, 4) }
  function EncI32(v: int32): (s: seq<byte>) ensures |s| == 4 { EncU32(ToU32(v)) }
  function EncU64(v: uint64): (s: seq<byte>) ensures |s| == 8 { LE(v, 8) }
  function EncI64(v: int64): (s: seq<byte>) ensures |s| == 8 { EncU64(ToU64(v)) }
  function EncBool(v: bool): (s: seq<byte>) ensures |s| == 4 { EncU32(if v then BOOL_TRUE else BOOL_FALSE) }

  function Zeros(n: nat): (s: seq<byte>)
    ensures |s| == n
  {
    if n == 0 then [] else Zeros(n - 1) + [0]
  }

  function Pad(total: nat): nat { (4 - total % 4) % 4 }

  /** Length header of a byte string; the long form keeps only three bytes of the length. */
  function EncLength(n: nat): seq<byte> {
    if n < 0xfe then [n] else [0xfe] + LE(n, 3)
  }

  function EncBytes(b: seq<byte>): (s: seq<byte>)
    ensures |s| % 4 == 0
    ensures |s| >= |b| + 1
    ensures |b| >= 0xfe ==> |s| >= |b| + 4
    ensures |s| <= |b| + 7
  {
    var header := EncLength(|b|);
    header + b + Zeros(Pad(|header| + |b|))
  }

  // ---- reads ---------------------------------------------------------------------------

  function GetRaw(s: seq<byte>, n: nat): (p: Parsed<seq<byte>>)
    ensures p.Ok? ==> |p.value| == n && s == p.value + p.rest
  {
    if n > |s| then Err(ShortBuffer, s) else Ok(s[..n], s[n..])
  }

  function GetU32(s: seq<byte>): Parsed<uint32> {
    Pow256Values();
    if 4 > |s| then Err(ShortBuffer, s) else Ok(FromLE(s[..4]), s[4..])
  }

  function GetU64(s: seq<byte>): Parsed<uint64> {
    Pow256Values();
    if 8 > |s| then Err(ShortBuffer, s) else Ok(FromLE(s[..8]), s[8..])
  }

  function GetI32(s: seq<byte>): Parsed<int32> {
    var (v, t) :- GetU32(s);
    Ok(ToI32(v), t)
  }

  function GetI64(s: seq<byte>): Parsed<int64> {
    var (v, t) :- GetU64(s);
    Ok(ToI64(v), t)
  }

  function GetBool(s: seq<byte>): Parsed<bool> {
    var (id, t) :- GetU32(s);
    if id == BOOL_TRUE then Ok(true, t)
    else if id == BOOL_FALSE then Ok(false, t)
    else Err(InvalidBool, t)
  }

  /** Payload length and header size; the leading byte 0xff is reserved. */
  function GetLength(s: seq<byte>): Parsed<(nat, nat)> {
    if 1 > |s| then Err(ShortBuffer, s)
    else if s[0] == 0xff then Err(InvalidLength, s)
    else if s[0] < 0xfe then Ok((s[0], 1), s[1..])
    else if 4 > |s| then Err(ShortBuffer, s)
    else Ok((FromLE(s[1..4]), 4), s[4..])
  }

  function GetBytes(s: seq<byte>): Parsed<seq<byte>> {
    var (lh, t) :- GetLength(s);
    var (out, t) :- GetRaw(t, lh.0);
    var (_, t) :- GetRaw(t, Pad(lh.1 + lh.0));
    Ok(out, t)
  }

  // ---- the bytes themselves --------------------------------------------------------------

  /** Least significant byte first. */
  lemma U32Bytes(v: uint32, a: byte, b: byte, c: byte, d: byte)
    requires v == a + 256 * (b + 256 * (c + 256 * d))
    ensures EncU32(v) == [a, b, c, d]
  {
    assert v / 256 == b + 256 * (c + 256 * d) && v % 256 == a;
    assert v / 256 / 256 == c + 256 * d && v / 256 % 256 == b;
    assert v / 256 / 256 / 256 == d && v / 256 / 256 % 256 == c;
    assert LE(v, 4) == [a] + LE(v / 256, 3);
    assert LE(v / 256, 3) == [b] + LE(v / 256 / 256, 2);
    assert LE(v / 256 / 256, 2) == [c] + LE(d, 1);
    assert LE(d, 1) == [d];
  }

  lemma TagFirst(tag: uint32, a: byte, b: byte, c: byte, d: byte, rest: seq<byte>)
    requires tag == a + 256 * (b + 256 * (c + 256 * d))
    ensures (EncU32(tag) + rest)[..4] == [a, b, c, d]
  {
    hide EncU32;
    U32Bytes(tag, a, b, c, d);
    TakeDrop(EncU32(tag), rest);
  }

  /** Bools are the constructors 0x997275b5 and 0xbc799737, negative numbers two's complement. */
  lemma BoolsOnTheWire()
    ensures EncBool(true) == [0xb5, 0x75, 0x72, 0x99] && EncBool(false) == [0x37, 0x97, 0x79, 0xbc]
    ensures EncI32(-1) == [0xff, 0xff, 0xff, 0xff] && EncU32(0x01020304) == [4, 3, 2, 1]
  {
    hide EncU32;
    U32Bytes(BOOL_TRUE, 0xb5, 0x75, 0x72, 0x99);
    U32Bytes(BOOL_FALSE, 0x37, 0x97, 0x79, 0xbc);
    U32Bytes(0xffff_ffff, 0xff, 0xff, 0xff, 0xff);
    U32Bytes(0x01020304, 4, 3, 2, 1);
  }

  // ---- each read undoes its layout and leaves the suffix, whatever it is -----------------

  lemma RawRoundTrip(b: seq<byte>, rest: seq<byte>)
    ensures GetRaw(b + rest, |b|) == Ok(b, rest)
  {
  }

  lemma U32RoundTrip(v: uint32, rest: seq<byte>)
    ensures GetU32(EncU32(v) + rest) == Ok(v, rest)
  {
    Pow256Values();
    FromLEofLE(v, 4);
    TakeDrop(EncU32(v), rest);
  }

  lemma U64RoundTrip(v: uint64, rest: seq<byte>)
    ensures GetU64(EncU64(v) + rest) == Ok(v, rest)
  {
    Pow256Values();
    FromLEofLE(v, 8);
    TakeDrop(EncU64(v), rest);
  }

  lemma I32RoundTrip(v: int32, rest: seq<byte>)
    ensures GetI32(EncI32(v) + rest) == Ok(v, rest)
  {
    U32RoundTrip(ToU32(v), rest);
  }

  lemma I64RoundTrip(v: int64, rest: seq<byte>)
    ensures GetI64(EncI64(v) + rest) == Ok(v, rest)
  {
    U64RoundTrip(ToU64(v), rest);
  }

  lemma BoolRoundTrip(v: bool, rest: seq<byte>)
    ensures GetBool(EncBool(v) + rest) == Ok(v, rest)
  {
    U32RoundTrip(if v then BOOL_TRUE else BOOL_FALSE, rest);
  }

  /** The header survives the trip modulo the three bytes the long form has room for. */
  lemma LengthRoundTrip(n: nat, rest: seq<byte>)
    ensures var len := if n < 0xfe then n else n % TWO_24;
            GetLength(EncLength(n) + rest) == Ok((len, |EncLength(n)|), rest)
  {
    var s := EncLength(n) + rest;
    if n >= 0xfe {
      assert s[1..4] == LE(n, 3);
      LowBytes(n);
    }
  }

  lemma LowBytes(n: nat)
    ensures FromLE(LE(n, 3)) == n % TWO_24
  {
    var a, b, c := n % 256, n / 256 % 256, n / 256 / 256 % 256;
    assert LE(n, 3) == [a] + LE(n / 256, 2);
    assert LE(n / 256, 2) == [b] + LE(n / 256 / 256, 1);
    assert LE(n / 256 / 256, 1) == [c];
    assert FromLE([c]) == c;
    assert [b, c][1..] == [c] && FromLE([b, c]) == b + 256 * c;
    assert [a, b, c][1..] == [b, c] && FromLE([a, b, c]) == a + 256 * (b + 256 * c);
    assert LE(n, 3) == [a, b, c];
  }

  /**
   A byte string comes back, and the cursor stops right behind its padding, exactly when its
   length fits the three-byte header; longer ones are silently cut.
   */
  lemma BytesRoundTrip(b: seq<byte>, rest: seq<byte>)
    ensures GetBytes(EncBytes(b) + rest) == Ok(b, rest) <==> |b| < TWO_24
  {
    hide GetLength, EncLength, Zeros, GetRaw;
    var h := EncLength(|b|);
    var z := Zeros(Pad(|h| + |b|));
    Assoc(h + b, z, rest);
    Assoc(h, b, z + rest);
    LengthRoundTrip(|b|, b + (z + rest));
    if |b| < TWO_24 {
      RawRoundTrip(b, z + rest);
      RawRoundTrip(z, rest);
    } else {
      assert |b| % TWO_24 < |b|;
    }
  }

  // ---- the classes -------------------------------------------------------------------

  class Writer {
    var buf: seq<byte>

    constructor ()
      ensures buf == []
    {
      buf := [];
    }

    method WriteUint32(v: uint32)
      modifies this
      ensures buf == old(buf) + EncU32(v)
    {
      buf := buf + LE(v, 4);
    }

    method WriteInt32(v: int32)
      modifies this
      ensures buf == old(buf) + EncI32(v)
    {
      WriteUint32(ToU32(v));
    }

    method WriteUint64(v: uint64)
      modifies this
      ensures buf == old(buf) + EncU64(v)
    {
      buf := buf + LE(v, 8);
    }

    method WriteInt64(v: int64)
      modifies this
      ensures buf == old(buf) + EncI64(v)
    {
      WriteUint64(ToU64(v));
    }

    method WriteRaw(b: seq<byte>)
      modifies this
      ensures buf == old(buf) + b
    {
      buf := buf + b;
    }

    method WriteBool(v: bool)
      modifies this
      ensures buf == old(buf) + EncBool(v)
    {
      if v {
        WriteUint32(BOOL_TRUE);
      } else {
        WriteUint32(BOOL_FALSE);
      }
    }

    method WritePadding(pad: nat)
      modifies this
      ensures buf == old(buf) + Zeros(pad)
    {
      for i := 0 to pad
        invariant buf == old(buf) + Zeros(i)
      {
        buf := buf + [0];
      }
    }

    method WriteBytes(b: seq<byte>)
      modifies this
      ensures buf == old(buf) + EncBytes(b)
    {
      ghost var start := buf;
      var length := |b|;
      if length < 0xfe {
        buf := buf + [length];
        buf := buf + b;
        WritePadding((4 - (1 + length) % 4) % 4);
        assert buf == start + (EncLength(length) + b + Zeros(Pad(1 + length)));
        return;
      }
      buf := buf + [0xfe, length % 256, length / 256 % 256, length / 256 / 256 % 256];
      assert LE(length, 3) == [length % 256] + LE(length / 256, 2);
      assert LE(length / 256, 2) == [length / 256 % 256] + LE(length / 256 / 256, 1);
      assert buf == start + EncLength(length);
      buf := buf + b;
      WritePadding((4 - (4 + length) % 4) % 4);
      assert buf == start + (EncLength(length) + b + Zeros(Pad(4 + length)));
    }
  }

  class Reader {
    const buf: seq<byte>
    var pos: nat

    constructor (b: seq<byte>)
      ensures buf == b && pos == 0
    {
      buf := b;
      pos := 0;
    }

    /** The cursor never leaves the buffer. */
    ghost predicate Valid()
      reads this
    {
      pos <= |buf|
    }

    function Unread(): seq<byte>
      requires Valid()
      reads this
    {
      buf[pos..]
    }

    /** A method's result and final cursor agree with what the layout functions say. */
    ghost predicate Did<T>(r: Result<T>, spec: Parsed<T>)
      reads this
    {
      Valid() && Unread() == spec.rest && r == spec.Outcome()
    }

    method Need(n: nat) returns (r: Result<()>)
      requires Valid()
      ensures r == if pos + n > |buf| then Failure(ShortBuffer) else Success(())
    {
      r := if pos + n > |buf| then Failure(ShortBuffer) else Success(());
    }

    method ReadRaw(n: nat) returns (r: Result<seq<byte>>)
      requires Valid()
      modifies this
      ensures Did(r, GetRaw(old(Unread()), n))
    {
      var _ :- Need(n);
      var out := buf[pos..pos + n];
      assert Unread()[..n] == out;
      pos := pos + n;
      return Success(out);
    }

    method ReadUint32() returns (r: Result<uint32>)
      requires Valid()
      modifies this
      ensures Did(r, GetU32(old(Unread())))
    {
      var _ :- Need(4);
      Pow256Values();
      var v := FromLE(buf[pos..pos + 4]);
      assert Unread()[..4] == buf[pos..pos + 4];
      pos := pos + 4;
      return Success(v);
    }

    method ReadInt32() returns (r: Result<int32>)
      requires Valid()
      modifies this
      ensures Did(r, GetI32(old(Unread())))
    {
      var v :- ReadUint32();
      return Success(ToI32(v));
    }

    method ReadUint64() returns (r: Result<uint64>)
      requires Valid()
      modifies this
      ensures Did(r, GetU64(old(Unread())))
    {
      var _ :- Need(8);
      Pow256Values();
      var v := FromLE(buf[pos..pos + 8]);
      assert Unread()[..8] == buf[pos..pos + 8];
      pos := pos + 8;
      return Success(v);
    }

    method ReadInt64() returns (r: Result<int64>)
      requires Valid()
      modifies this
      ensures Did(r, GetI64(old(Unread())))
    {
      var v :- ReadUint64();
      return Success(ToI64(v));
    }

    method ReadBool() returns (r: Result<bool>)
      requires Valid()
      modifies this
      ensures Did(r, GetBool(old(Unread())))
    {
      var id :- ReadUint32();
      if id == BOOL_TRUE {
        return Success(true);
      } else if id == BOOL_FALSE {
        return Success(false);
      } else {
        return Failure(InvalidBool);
      }
    }

    method ReadLengthPrefix() returns (r: Result<(nat, nat)>)
      requires Valid()
      modifies this
      ensures Did(r, GetLength(old(Unread())))
    {
      var _ :- Need(1);
      var first := buf[pos];
      if first == 0xff {
        return Failure(InvalidLength);
      }
      if first < 0xfe {
        pos := pos + 1;
        return Success((first, 1));
      }
      var _ :- Need(4);
      var length := FromLE(buf[pos + 1..pos + 4]);
      assert Unread()[1..4] == buf[pos + 1..pos + 4];
      pos := pos + 4;
      return Success((length, 4));
    }

    method ReadBytes() returns (r: Result<seq<byte>>)
      requires Valid()
      modifies this
      ensures Did(r, GetBytes(old(Unread())))
    {
      hide GetLength, GetRaw;
      var prefix :- ReadLengthPrefix();
      var (length, headerLen) := prefix;
      var out :- ReadRaw(length);
      var pad := (4 - (headerLen + length) % 4) % 4;
      assert GetRaw(Unread(), 0) == Ok([], Unread()) by {
        RawRoundTrip([], Unread());
        assert [] + Unread() == Unread();
      }
      if pad > 0 {
        var _ :- ReadRaw(pad);
      }
      return Success(out);
    }
  }
}
