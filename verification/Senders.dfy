/**
 Concurrent senders on one transport. Queries, packets, pongs and keepalive pings come from
 different goroutines; each write is: take the lock, check the size, take a seqno, write the
 header, write the payload, release. Every one of these is a step of its own here, and either
 write may fail after any number of bytes, upon which the others carry on.
 */
module Senders {
  import opened Bytes
  import opened TLPrimitives
  import opened TCPPacket
  import opened Frame

  type ThreadId = nat

  datatype Phase =
    | Idle
    | Waiting(packet: Packet)                   // wants the write lock
    | Checking(packet: Packet)                  // holds it, size not yet checked
    | Numbered(packet: Packet, seqno: int32)    // holds it, seqno taken
    | HeaderOut(packet: Packet)                 // holds it, header written
  {
    predicate Holding() { Checking? || Numbered? || HeaderOut? }
  }

  datatype Lock = Free | HeldBy(owner: ThreadId)

  datatype State = State(
    lock: Lock, phases: map<ThreadId, Phase>, outSeqno: int32, stream: seq<byte>,
    accepted: seq<Packet>,                      // whose write succeeded
    intact: seq<Packet>,                        // those of them before the first failed write
    failures: nat)
  {
    function Phase(t: ThreadId): Phase { if t in phases then phases[t] else Idle }
    function With(t: ThreadId, phase: Phase): State { this.(phases := phases[t := phase]) }
  }

  const INITIAL := State(Free, map[], 0, [], [], [], 0)

  datatype Step =
    | Submit(t: ThreadId, packet: Packet) | Acquire(t: ThreadId) | Refuse(t: ThreadId)
    | TakeSeqno(t: ThreadId) | PutHeader(t: ThreadId) | PutPayload(t: ThreadId)
    | FailHeader(t: ThreadId, written: nat) | FailPayload(t: ThreadId, written: nat)

  predicate Enabled(s: State, step: Step) {
    match step
    case Submit(t, _) => s.Phase(t).Idle?
    case Acquire(t) => s.Phase(t).Waiting? && s.lock.Free?
    case Refuse(t) => s.Phase(t).Checking? && !Sized(EncPacket(s.Phase(t).packet))
    case TakeSeqno(t) => s.Phase(t).Checking? && Sized(EncPacket(s.Phase(t).packet))
    case PutHeader(t) => s.Phase(t).Numbered? && Sized(EncPacket(s.Phase(t).packet))
    case PutPayload(t) => s.Phase(t).HeaderOut?
    case FailHeader(t, n) => s.Phase(t).Numbered? && Sized(EncPacket(s.Phase(t).packet)) && n < 8
    case FailPayload(t, n) => s.Phase(t).HeaderOut? && n < |EncPacket(s.Phase(t).packet)|
  }

  function Apply(s: State, step: Step): State
    requires Enabled(s, step)
  {
    match step
    case Submit(t, p) => s.With(t, Waiting(p))
    case Acquire(t) => s.With(t, Checking(s.Phase(t).packet)).(lock := HeldBy(t))
    case Refuse(t) => s.With(t, Idle).(lock := Free)
    case TakeSeqno(t) => s.With(t, Numbered(s.Phase(t).packet, s.outSeqno)).(outSeqno := WrapI32(s.outSeqno + 1))
    case PutHeader(t) =>
      var Numbered(p, seqno) := s.Phase(t);
      s.With(t, HeaderOut(p)).(stream := s.stream + EncHeader(seqno, |EncPacket(p)|))
    case PutPayload(t) =>
      var HeaderOut(p) := s.Phase(t);
      s.With(t, Idle).(lock := Free, stream := s.stream + EncPacket(p), accepted := s.accepted + [p],
                       intact := if s.failures == 0 then s.intact + [p] else s.intact)
    case FailHeader(t, n) =>
      var Numbered(p, seqno) := s.Phase(t);
      s.With(t, Idle).(lock := Free, stream := s.stream + EncHeader(seqno, |EncPacket(p)|)[..n],
          failures := s.failures + 1)
    case FailPayload(t, n) =>
      var HeaderOut(p) := s.Phase(t);
      s.With(t, Idle).(lock := Free, stream := s.stream + EncPacket(p)[..n], failures := s.failures + 1)
  }

  ghost predicate Runs(s: State, steps: seq<Step>, end: State)
    decreases |steps|
  {
    if steps == [] then end == s
    else Enabled(s, steps[0]) && Runs(Apply(s, steps[0]), steps[1..], end)
  }

  ghost function Payloads(ps: seq<Packet>): (r: seq<seq<byte>>)
    ensures |r| == |ps|
    ensures forall i :: 0 <= i < |ps| ==> r[i] == EncPacket(ps[i])
  {
    seq(|ps|, i requires 0 <= i < |ps| => EncPacket(ps[i]))
  }

  // ---- the invariant ---------------------------------------------------------------------

  /** Only the lock's owner is inside a write. */
  ghost predicate Exclusive(s: State) {
    && (forall t :: s.Phase(t).Holding() ==> s.lock == HeldBy(t))
    && (s.lock.HeldBy? ==> s.Phase(s.lock.owner).Holding())
  }

  /** The owner's phase, or Idle when nobody is writing. */
  function Current(s: State): Phase { if s.lock.HeldBy? then s.Phase(s.lock.owner) else Idle }

  /** What the current write has put on the wire so far. */
  ghost function Unfinished(s: State): seq<byte> {
    var c := Current(s);
    if c.HeaderOut? && Sized(EncPacket(c.packet)) then EncHeader(WrapI32(|s.accepted|), |EncPacket(c.packet)|) else []
  }

  /** Stream, counter and accepted packets agree; a failed write spoils only what comes after it. */
  ghost predicate Ledger(s: State) {
    var c := Current(s);
    && AllSized(Payloads(s.accepted)) && AllSized(Payloads(s.intact))
    && s.intact <= s.accepted
    && Frames(0, Payloads(s.intact)) <= s.stream
    && (s.failures == 0 ==> s.intact == s.accepted && s.stream == Frames(0, Payloads(s.accepted)) + Unfinished(s))
    && s.outSeqno == WrapI32(|s.accepted| + s.failures + if c.Numbered? || c.HeaderOut? then 1 else 0)
    && (c.Numbered? ==> c.seqno == WrapI32(|s.accepted| + s.failures))
    && (c.Numbered? || c.HeaderOut? ==> Sized(EncPacket(c.packet)))
  }

  lemma ExclusivePreserved(s: State, step: Step)
    requires Exclusive(s) && Enabled(s, step)
    ensures Exclusive(Apply(s, step))
  {
    hide EncPacket, EncHeader, WrapI32, Sized;
    var s' := Apply(s, step);
    assert forall t :: t != step.t ==> s'.Phase(t) == s.Phase(t);
  }

  lemma LedgerPreserved(s: State, step: Step)
    requires Exclusive(s) && Ledger(s) && Enabled(s, step)
    ensures Ledger(Apply(s, step))
  {
    hide EncPacket, EncHeader, WrapI32, Frames;
    var s' := Apply(s, step);
    var t := step.t;
    assert s.Phase(t).Holding() ==> Current(s) == s.Phase(t);
    match step
    case Submit(_, _) =>
      assert Current(s') == Current(s);
    case Acquire(_) =>
    case Refuse(_) =>
    case TakeSeqno(_) =>
      WrapAdds(|s.accepted| + s.failures);
    case PutHeader(_) =>
      assert s.failures == 0 ==> s.stream == Frames(0, Payloads(s.accepted)) + [];
    case PutPayload(_) => PayloadKeepsLedger(s, t);
    case FailHeader(_, _) =>
    case FailPayload(_, _) =>
  }

  lemma PayloadKeepsLedger(s: State, t: ThreadId)
    requires Ledger(s) && s.Phase(t).HeaderOut? && Current(s) == s.Phase(t)
    ensures Ledger(Apply(s, PutPayload(t)))
  {
    hide EncPacket, EncHeader, WrapI32, Frames;
    var s' := Apply(s, PutPayload(t));
    var p := Current(s).packet;
    var done := Payloads(s.accepted);
    FramesAppend(0, done, EncPacket(p));
    assert Payloads(s'.accepted) == done + [EncPacket(p)];
    if s.failures == 0 {
      Assoc(Frames(0, done), Unfinished(s), EncPacket(p));
      assert s'.stream + [] == s'.stream;
    }
  }

  ghost predicate Inv(s: State) { Exclusive(s) && Ledger(s) }

  lemma {:induction false} InvRuns(s: State, steps: seq<Step>, end: State)
    requires Inv(s) && Runs(s, steps, end)
    ensures Inv(end)
    decreases |steps|
  {
    hide Enabled, Apply, Exclusive, Ledger;
    if steps != [] {
      ExclusivePreserved(s, steps[0]);
      LedgerPreserved(s, steps[0]);
      InvRuns(Apply(s, steps[0]), steps[1..], end);
    }
  }

  lemma InvInitially()
    ensures Inv(INITIAL)
  {
    assert Payloads([]) == [];
    assert Frames(0, []) == [];
  }

  // ---- what a strict peer sees -----------------------------------------------------------

  /** A header whose payload has not been written yet yields nothing. */
  lemma LoneHeader(expected: int32, seqno: int32, n: nat)
    requires MIN_FRAME_SIZE <= n <= MAX_FRAME_SIZE
    ensures ReadAll(true, expected, EncHeader(seqno, n)) == []
  {
    hide EncU32, EncI32, GetI32, GetU32, WrapI32;
    U32RoundTrip(n, EncI32(seqno));
    assert EncHeader(seqno, n)[8..] == [];
  }

  /**
   In every state that any interleaving of senders can reach, in the middle of a write too, a
   strict reader of the bytes sent so far gets exactly the accepted packets, whole and in
   order, however often the int32 seqno has wrapped around; if writes have failed, it gets at
   least those accepted before the first failure, first and in order.
   */
  lemma StreamReadsBack(steps: seq<Step>, s: State)
    requires Runs(INITIAL, steps, s)
    ensures s.failures == 0 ==> ReadAll(true, 0, s.stream) == Payloads(s.accepted)
    ensures s.intact <= s.accepted && Payloads(s.intact) <= ReadAll(true, 0, s.stream)
    ensures forall i :: 0 <= i < |s.accepted| ==> Decode(Payloads(s.accepted)[i]) == Success(s.accepted[i])
  {
    hide *;
    InvInitially();
    InvRuns(INITIAL, steps, s);
    IntactReadsBack(s);
    AcceptedDecode(s);
  }

  lemma IntactReadsBack(s: State)
    requires Inv(s)
    ensures s.failures == 0 ==> ReadAll(true, 0, s.stream) == Payloads(s.accepted)
    ensures s.intact <= s.accepted && Payloads(s.intact) <= ReadAll(true, 0, s.stream)
  {
    hide ReadAll, Frames, EncPacket, EncHeader, Apply, Enabled, WrapI32, Unfinished, Exclusive;
    WrapZero();
    var sure := Payloads(s.intact);
    var framed := Frames(0, sure);
    var after := s.stream[|framed|..];
    assert s.stream == framed + after;
    FramesThenRest(0, sure, after);
    if s.failures == 0 {
      assert after == Unfinished(s);
      UnfinishedReadsNothing(s);
      assert sure + [] == sure;
    }
  }

  lemma AcceptedDecode(s: State)
    requires Inv(s)
    ensures forall i :: 0 <= i < |s.accepted| ==> Decode(Payloads(s.accepted)[i]) == Success(s.accepted[i])
  {
    hide Frames, EncPacket, EncHeader, Decode, WrapI32, Unfinished, Exclusive;
    forall i | 0 <= i < |s.accepted|
      ensures Decode(Payloads(s.accepted)[i]) == Success(s.accepted[i])
    {
      assert Sized(Payloads(s.accepted)[i]);
      AcceptedPacketsDecode(s.accepted[i]);
    }
  }

  lemma UnfinishedReadsNothing(s: State)
    ensures ReadAll(true, WrapI32(|s.accepted|), Unfinished(s)) == []
  {
    hide ReadAll, EncPacket, EncHeader, WrapI32;
    var next := WrapI32(|s.accepted|);
    if Unfinished(s) == [] {
      EmptyRead(true, next);
    } else {
      LoneHeader(next, next, |EncPacket(Current(s).packet)|);
    }
  }

  /** Between writes the counter is the number of packets accepted or failed on the way, modulo 2^32. */
  lemma SeqnoCountsAccepted(steps: seq<Step>, s: State)
    requires Runs(INITIAL, steps, s) && s.lock.Free?
    ensures s.outSeqno == WrapI32(|s.accepted| + s.failures)
    ensures AllSized(Payloads(s.accepted)) && (s.failures == 0 ==> s.stream == Frames(0, Payloads(s.accepted)))
  {
    hide *;
    InvInitially();
    InvRuns(INITIAL, steps, s);
    BetweenWrites(s);
  }

  lemma BetweenWrites(s: State)
    requires Inv(s) && s.lock.Free?
    ensures s.outSeqno == WrapI32(|s.accepted| + s.failures)
    ensures AllSized(Payloads(s.accepted)) && (s.failures == 0 ==> s.stream == Frames(0, Payloads(s.accepted)))
  {
    hide Frames, WrapI32, EncPacket, EncHeader, Exclusive, Sized;
    assert Unfinished(s) == [];
    assert s.failures == 0 ==> s.stream == Frames(0, Payloads(s.accepted)) + [];
  }
}
