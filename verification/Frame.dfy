/**
 The frame layer: [length][seqno][payload] with one wrapping int32 counter per direction.
 The connection is a byte stream: `outgoing` is what has been put on the wire, `incoming`
 what is left to read. How many bytes a write gets through is a parameter.
 */
module Frame {
  import opened Bytes
  import opened TLPrimitives
  import opened TCPPacket

  predicate Sized(payload: seq<byte>) { MIN_FRAME_SIZE <= |payload| <= MAX_FRAME_SIZE }

  function EncHeader(seqno: int32, n: nat): (h: seq<byte>)
    requires n < TWO_32
    ensures |h| == 8
  {
    EncU32(n) + EncI32(seqno)
  }

  function EncFrame(seqno: int32, payload: seq<byte>): (f: seq<byte>)
    requires Sized(payload)
    ensures |f| == 8 + |payload|
  {
    EncHeader(seqno, |payload|) + payload
  }

  /** Outcome of reading one frame: the payload or failure, the next expected seqno, the unread bytes. */
  datatype FrameRead = FrameRead(payload: Result<seq<byte>>, inSeqno: int32, rest: seq<byte>)

  /** A short read consumes what there was. */
  function GetFrame(strict: bool, expected: int32, s: seq<byte>): (r: FrameRead)
    ensures r.payload.Success? ==> |r.rest| < |s|
  {
    if |s| < 8 then FrameRead(Failure(ShortBuffer), expected, [])
    else
      var n, seqno, body := GetU32(s).value, GetI32(s[4..]).value, s[8..];
      if !(MIN_FRAME_SIZE <= n <= MAX_FRAME_SIZE) then FrameRead(Failure(InvalidLength), expected, body)
      else
        var next := WrapI32((if strict then expected else seqno) + 1);
        if strict && seqno != expected then FrameRead(Failure(Rejected), next, body)
        else if |body| < n then FrameRead(Failure(ShortBuffer), next, [])
        else FrameRead(Success(body[..n]), next, body[n..])
  }

  /** The read loop: frames are taken until the first failure, and none after it. */
  function ReadAll(strict: bool, expected: int32, s: seq<byte>): seq<seq<byte>>
    decreases |s|
  {
    var r := GetFrame(strict, expected, s);
    if r.payload.Failure? then [] else [r.payload.value] + ReadAll(strict, r.inSeqno, r.rest)
  }

  ghost predicate AllSized(payloads: seq<seq<byte>>) {
    forall i :: 0 <= i < |payloads| ==> Sized(payloads[i])
  }

  /** The wire image of payloads numbered consecutively from `start`. */
  ghost function Frames(start: nat, payloads: seq<seq<byte>>): seq<byte>
    requires AllSized(payloads)
    decreases |payloads|
  {
    if payloads == [] then [] else EncFrame(WrapI32(start), payloads[0]) + Frames(start + 1, payloads[1..])
  }

  /** One frame is read back under its own number, and under no other when the reader is strict. */
  lemma FrameRoundTrip(strict: bool, expected: int32, seqno: int32, payload: seq<byte>, rest: seq<byte>)
    requires Sized(payload)
    ensures var r := GetFrame(strict, expected, EncFrame(seqno, payload) + rest);
            if strict && seqno != expected then r.payload.Failure?
            else r == FrameRead(Success(payload), WrapI32(seqno + 1), rest)
  {
    hide EncU32, EncI32, GetU32, GetI32, WrapI32;
    var n, q := EncU32(|payload|), EncI32(seqno);
    var s := EncFrame(seqno, payload) + rest;
    Assoc(n + q, payload, rest);
    Assoc(n, q, payload + rest);
    U32RoundTrip(|payload|, q + (payload + rest));
    I32RoundTrip(seqno, payload + rest);
    assert s[4..] == q + (payload + rest);
    assert s[8..] == payload + rest;
    TakeDrop(payload, rest);
  }

  lemma WrapZero()
    ensures WrapI32(0) == 0
  {
  }

  lemma EmptyRead(strict: bool, expected: int32)
    ensures ReadAll(strict, expected, []) == []
  {
  }

  /** Reading the wire image of a batch yields the batch and goes on with what follows it. */
  lemma {:induction false} FramesThenRest(start: nat, payloads: seq<seq<byte>>, rest: seq<byte>)
    requires AllSized(payloads)
    ensures ReadAll(true, WrapI32(start), Frames(start, payloads) + rest)
         == payloads + ReadAll(true, WrapI32(start + |payloads|), rest)
    decreases |payloads|
  {
    hide WrapI32, EncFrame, GetFrame;
    if payloads == [] {
      assert [] + rest == rest;
      assert payloads + ReadAll(true, WrapI32(start), rest) == ReadAll(true, WrapI32(start), rest);
    } else {
      var tail := Frames(start + 1, payloads[1..]);
      Assoc(EncFrame(WrapI32(start), payloads[0]), tail, rest);
      FrameRoundTrip(true, WrapI32(start), WrapI32(start), payloads[0], tail + rest);
      WrapAdds(start);
      FramesThenRest(start + 1, payloads[1..], rest);
      var after := ReadAll(true, WrapI32(start + |payloads|), rest);
      assert start + 1 + |payloads[1..]| == start + |payloads|;
      assert [payloads[0]] + payloads[1..] == payloads;
      Assoc([payloads[0]], payloads[1..], after);
    }
  }

  /** A strict reader gets back exactly what was framed, also past the int32 wrap-around. */
  lemma FramesReadBack(start: nat, payloads: seq<seq<byte>>)
    requires AllSized(payloads)
    ensures ReadAll(true, WrapI32(start), Frames(start, payloads)) == payloads
  {
    hide *;
    FramesThenRest(start, payloads, []);
    EmptyRead(true, WrapI32(start + |payloads|));
    assert Frames(start, payloads) + [] == Frames(start, payloads);
    assert payloads + [] == payloads;
  }

  lemma {:induction false} FramesAppend(start: nat, payloads: seq<seq<byte>>, last: seq<byte>)
    requires AllSized(payloads) && Sized(last)
    ensures AllSized(payloads + [last])
    ensures Frames(start, payloads + [last]) == Frames(start, payloads) + EncFrame(WrapI32(start + |payloads|), last)
    decreases |payloads|
  {
    hide WrapI32, EncFrame;
    if payloads == [] {
      assert Frames(start + 1, []) == [];
      assert [last][1..] == [] && (payloads + [last]) == [last];
      var f := EncFrame(WrapI32(start), last);
      assert f + [] == f && [] + f == f;
    } else {
      FramesAppend(start + 1, payloads[1..], last);
      assert (payloads + [last])[1..] == payloads[1..] + [last];
      Assoc(EncFrame(WrapI32(start), payloads[0]), Frames(start + 1, payloads[1..]),
          EncFrame(WrapI32(start + |payloads|), last));
    }
  }

  // ---- whole frames dropped, duplicated or reordered on the way ---------------------------

  /** `delivery[k]` tells which of the sent frames arrives k-th. */
  ghost predicate ValidDelivery(delivery: seq<nat>, sent: seq<seq<byte>>) {
    forall k :: 0 <= k < |delivery| ==> delivery[k] < |sent|
  }

  ghost function Delivered(sent: seq<seq<byte>>, delivery: seq<nat>): seq<byte>
    requires AllSized(sent) && ValidDelivery(delivery, sent)
  {
    if delivery == [] then []
    else EncFrame(WrapI32(delivery[0]), sent[delivery[0]]) + Delivered(sent, delivery[1..])
  }

  /** How long the delivery keeps to sending order, counting from `next`. */
  ghost function InOrder(next: nat, delivery: seq<nat>): (k: nat)
    ensures k <= |delivery|
    decreases |delivery|
  {
    if delivery == [] || delivery[0] != next then 0 else 1 + InOrder(next + 1, delivery[1..])
  }

  lemma {:induction false} DeliveredFrom(sent: seq<seq<byte>>, next: nat, delivery: seq<nat>)
    requires AllSized(sent) && ValidDelivery(delivery, sent)
    requires |sent| < TWO_32 && next <= |sent|
    ensures next + InOrder(next, delivery) <= |sent|
    ensures ReadAll(true, WrapI32(next), Delivered(sent, delivery)) == sent[next..next + InOrder(next, delivery)]
    decreases |delivery|
  {
    hide WrapI32, EncFrame, GetFrame;
    if delivery != [] {
      var d := delivery[0];
      var tail := Delivered(sent, delivery[1..]);
      FrameRoundTrip(true, WrapI32(next), WrapI32(d), sent[d], tail);
      if d == next {
        WrapAdds(next);
        DeliveredFrom(sent, next + 1, delivery[1..]);
        var k := InOrder(next + 1, delivery[1..]);
        assert sent[next..next + 1 + k] == [sent[next]] + sent[next + 1..next + 1 + k];
      } else {
        WrapCollides(d, next);
        WrapCollides(next, d);
      }
    }
  }

  lemma {:induction false} InOrderDelivery(sent: seq<seq<byte>>, next: nat, extra: nat)
    requires AllSized(sent) && next <= |sent| && extra < |sent|
    ensures var d := seq(|sent| - next, i requires 0 <= i => next + i) + [extra];
            ValidDelivery(d, sent) &&
            Delivered(sent, d) == Frames(next, sent[next..]) + EncFrame(WrapI32(extra), sent[extra])
    decreases |sent| - next
  {
    hide EncFrame, WrapI32;
    var d := seq(|sent| - next, i requires 0 <= i => next + i) + [extra];
    var last := EncFrame(WrapI32(extra), sent[extra]);
    if next == |sent| {
      assert d == [extra] && d[1..] == [];
      assert last + [] == last && [] + last == last;
    } else {
      InOrderDelivery(sent, next + 1, extra);
      assert d[1..] == seq(|sent| - next - 1, i requires 0 <= i => next + 1 + i) + [extra];
      assert sent[next..][1..] == sent[next + 1..];
      Assoc(EncFrame(WrapI32(next), sent[next]), Frames(next + 1, sent[next + 1..]), last);
    }
  }

  /** Once 2^32 frames have gone out, one replayed frame passes the strict reader. */
  lemma ReplayAfterWrap(sent: seq<seq<byte>>) returns (delivery: seq<nat>)
    requires AllSized(sent) && |sent| >= TWO_32
    ensures ValidDelivery(delivery, sent)
    ensures ReadAll(true, 0, Delivered(sent, delivery)) == sent + [sent[|sent| - TWO_32]]
  {
    hide EncFrame, GetFrame, Frames, Delivered, WrapI32;
    var first := |sent| - TWO_32;
    delivery := seq(|sent|, i requires 0 <= i => 0 + i) + [first];
    InOrderDelivery(sent, 0, first);
    assert sent[0..] == sent;
    WrapCollides(first, 0);
    assert WrapI32(0) == 0 by { WrapZero(); }
    var last := EncFrame(WrapI32(first), sent[first]);
    FramesThenRest(0, sent, last);
    FrameRoundTrip(true, WrapI32(|sent|), WrapI32(first), sent[first], []);
    assert last + [] == last;
    EmptyRead(true, WrapI32(first + 1));
    assert [sent[first]] + [] == [sent[first]];
  }

  /**
   Whatever happens to whole frames on the way, a strict reader accepts a prefix of what was
   sent: exactly so as long as fewer than 2^32 frames were sent.
   */
  lemma AcceptedIsPrefix(sent: seq<seq<byte>>)
    requires AllSized(sent)
    ensures (forall delivery: seq<nat> | ValidDelivery(delivery, sent) ::
               ReadAll(true, 0, Delivered(sent, delivery)) <= sent) <==> |sent| < TWO_32
  {
    hide WrapI32, EncFrame, ReadAll, Delivered;
    if |sent| < TWO_32 {
      forall delivery: seq<nat> | ValidDelivery(delivery, sent)
        ensures ReadAll(true, 0, Delivered(sent, delivery)) <= sent
      {
        DeliveredFrom(sent, 0, delivery);
        WrapZero();
      }
    } else {
      var delivery := ReplayAfterWrap(sent);
      assert !(ReadAll(true, 0, Delivered(sent, delivery)) <= sent);
    }
  }

  /** A header that announces fewer than 4 or more than 2^24 bytes is refused, whatever its seqno and what follows. */
  lemma WrongLengthIsRefused(strict: bool, expected: int32, s: seq<byte>)
    requires |s| >= 8 && !(4 <= FromLE(s[..4]) <= 16777216)
    ensures GetFrame(strict, expected, s) == FrameRead(Failure(InvalidLength), expected, s[8..])
  {
    hide FromLE, WrapI32;
  }

  // ---- the connection --------------------------------------------------------------------

  class FramedConn {
    var strict: bool
    var outSeqno: int32
    var inSeqno: int32
    var outgoing: seq<byte>
    var incoming: seq<byte>

    constructor (wire: seq<byte>)
      ensures strict && outSeqno == 0 && inSeqno == 0 && outgoing == [] && incoming == wire
    {
      strict, outSeqno, inSeqno, outgoing, incoming := true, 0, 0, [], wire;
    }

    /** One write of which the wire takes at most `room` bytes; it fails unless all got through. */
    method Write(b: seq<byte>, room: nat) returns (ok: bool)
      modifies this`outgoing
      ensures ok == (|b| <= room)
      ensures outgoing == old(outgoing) + (if ok then b else b[..room])
    {
      ok := |b| <= room;
      outgoing := outgoing + (if ok then b else b[..room]);
    }

    /**
     A payload refused for its size touches nothing. An accepted one takes the next seqno, also
     when the write then fails, and what reaches the wire is its frame or a prefix of it.
     */
    method WriteFrame(payload: seq<byte>, room: nat) returns (ok: bool)
      modifies this`outgoing, this`outSeqno
      ensures Sized(payload) <==> 4 <= |payload| <= 16777216
      ensures !Sized(payload) ==> !ok && outgoing == old(outgoing) && outSeqno == old(outSeqno)
      ensures Sized(payload) ==>
                var frame := EncFrame(old(outSeqno), payload);
                outSeqno == WrapI32(old(outSeqno) + 1) && ok == (|frame| <= room) &&
                outgoing == old(outgoing) + (if ok then frame else frame[..room])
    {
      var n := |payload|;
      if n < MIN_FRAME_SIZE || n > MAX_FRAME_SIZE {
        return false;
      }
      hide EncU32, EncI32;
      var seqno := outSeqno;
      outSeqno := WrapI32(outSeqno + 1);
      var header := EncU32(n) + EncI32(seqno);
      var sent := Write(header, room);
      ghost var frame := EncFrame(seqno, payload);
      assert frame == header + payload;
      if !sent {
        assert frame[..room] == header[..room];
        return false;
      }
      ok := Write(payload, room - 8);
      Assoc(old(outgoing), header, payload);
      if !ok {
        assert frame[..room] == header + payload[..room - 8];
        Assoc(old(outgoing), header, payload[..room - 8]);
      }
    }

    method ReadFrame() returns (res: Result<seq<byte>>)
      modifies this`incoming, this`inSeqno
      ensures FrameRead(res, inSeqno, incoming) == GetFrame(strict, old(inSeqno), old(incoming))
    {
      if |incoming| < 8 {
        incoming := [];
        return Failure(ShortBuffer);
      }
      var plen, seqno: int := GetU32(incoming).value, GetI32(incoming[4..]).value;
      incoming := incoming[8..];
      if plen < MIN_FRAME_SIZE {
        return Failure(InvalidLength);
      }
      if plen > MAX_FRAME_SIZE {
        return Failure(InvalidLength);
      }
      if strict {
        var expected := inSeqno;
        inSeqno := WrapI32(inSeqno + 1);
        if seqno != expected {
          return Failure(Rejected);
        }
      } else {
        inSeqno := WrapI32(seqno + 1);
      }
      if |incoming| < plen {
        incoming := [];
        return Failure(ShortBuffer);
      }
      var payload := incoming[..plen];
      incoming := incoming[plen..];
      return Success(payload);
    }

    /** The transport's read loop, stopped from outside after at most `polls` rounds. */
    method ReadLoop(polls: nat) returns (accepted: seq<seq<byte>>)
      modifies this`incoming, this`inSeqno
      ensures var all := ReadAll(strict, old(inSeqno), old(incoming));
              accepted == if polls < |all| then all[..polls] else all
    {
      accepted := [];
      ghost var all := ReadAll(strict, inSeqno, incoming);
      while |accepted| < polls
        invariant |accepted| <= polls
        invariant all == accepted + ReadAll(strict, inSeqno, incoming)
        decreases |incoming|
      {
        hide GetFrame;
        ghost var todo := ReadAll(strict, inSeqno, incoming);
        var res := ReadFrame();
        if res.Failure? {
          assert accepted + [] == accepted;
          return;
        }
        Assoc(accepted, [res.value], ReadAll(strict, inSeqno, incoming));
        accepted := accepted + [res.value];
      }
    }
  }
}
