/**
 The step systems at work: for each, the run of an operation that nobody interrupts, step by step, and
 what it leads to. What the invariants rule out is elsewhere; here is what can happen.
 */
module Scenarios {
  import opened Bytes
  import opened TCPPacket
  import opened Frame
  import W = Senders
  import Q = QueryCorrelator
  import T = Transport
  import S = Streams

  // ---- writing a frame -------------------------------------------------------------------------------

  /** A packet that fits is framed with the next seqno, whoever else is waiting for the lock. */
  lemma LoneWrite(s: W.State, t: W.ThreadId, p: Packet)
    requires s.lock.Free? && s.Phase(t).Idle? && Sized(EncPacket(p))
    ensures exists end ::
              && W.Runs(s, [W.Submit(t, p), W.Acquire(t), W.TakeSeqno(t), W.PutHeader(t), W.PutPayload(t)], end)
              && end.stream == s.stream + EncFrame(s.outSeqno, EncPacket(p)) && end.accepted == s.accepted + [p]
              && end.outSeqno == WrapI32(s.outSeqno + 1) && end.lock.Free? && end.Phase(t).Idle?
              && end.failures == s.failures
  {
    hide EncPacket, EncHeader, WrapI32;
    var a := W.Apply(s, W.Submit(t, p));
    var b := W.Apply(a, W.Acquire(t));
    var c := W.Apply(b, W.TakeSeqno(t));
    var d := W.Apply(c, W.PutHeader(t));
    var e := W.Apply(d, W.PutPayload(t));
    WRun5(s, W.Submit(t, p), W.Acquire(t), W.TakeSeqno(t), W.PutHeader(t), W.PutPayload(t), e);
    Assoc(s.stream, EncHeader(s.outSeqno, |EncPacket(p)|), EncPacket(p));
  }

  /** One that does not fit is refused, and leaves stream, counter and accepted packets as they were. */
  lemma LoneRefusal(s: W.State, t: W.ThreadId, p: Packet)
    requires s.lock.Free? && s.Phase(t).Idle? && !Sized(EncPacket(p))
    ensures exists end ::
              && W.Runs(s, [W.Submit(t, p), W.Acquire(t), W.Refuse(t)], end)
              && end.stream == s.stream && end.accepted == s.accepted && end.outSeqno == s.outSeqno
              && end.lock.Free? && end.Phase(t).Idle? && end.failures == s.failures
  {
    hide EncPacket, Sized;
    var a := W.Apply(s, W.Submit(t, p));
    var b := W.Apply(a, W.Acquire(t));
    var c := W.Apply(b, W.Refuse(t));
    WRun1(b, W.Refuse(t), c);
    WCons(a, W.Acquire(t), [W.Refuse(t)], c);
    WCons(s, W.Submit(t, p), [W.Acquire(t), W.Refuse(t)], c);
    assert [W.Submit(t, p)] + ([W.Acquire(t)] + [W.Refuse(t)]) == [W.Submit(t, p), W.Acquire(t), W.Refuse(t)];
  }

  lemma WCons(s: W.State, step: W.Step, rest: seq<W.Step>, end: W.State)
    requires W.Enabled(s, step) && W.Runs(W.Apply(s, step), rest, end)
    ensures W.Runs(s, [step] + rest, end)
  {
    hide W.Enabled, W.Apply;
    assert ([step] + rest)[1..] == rest;
  }

  lemma WRun1(s: W.State, step: W.Step, end: W.State)
    requires W.Enabled(s, step) && W.Apply(s, step) == end
    ensures W.Runs(s, [step], end)
  {
    hide W.Enabled, W.Apply;
    assert W.Runs(end, [], end) && [step][1..] == [];
  }

  lemma WRun5(s: W.State, a: W.Step, b: W.Step, c: W.Step, d: W.Step, e: W.Step, end: W.State)
    requires W.Enabled(s, a)
    requires var s1 := W.Apply(s, a);
             && W.Enabled(s1, b)
             && var s2 := W.Apply(s1, b);
                && W.Enabled(s2, c)
                && var s3 := W.Apply(s2, c);
                   && W.Enabled(s3, d)
                   && var s4 := W.Apply(s3, d); W.Enabled(s4, e) && W.Apply(s4, e) == end
    ensures W.Runs(s, [a, b, c, d, e], end)
  {
    hide W.Enabled, W.Apply;
    var s1 := W.Apply(s, a);
    var s2 := W.Apply(s1, b);
    var s3 := W.Apply(s2, c);
    var s4 := W.Apply(s3, d);
    WRun1(s4, e, end);
    WCons(s3, d, [e], end);
    WCons(s2, c, [d] + [e], end);
    WCons(s1, b, [c] + ([d] + [e]), end);
    WCons(s, a, [b] + ([c] + ([d] + [e])), end);
    assert [a] + ([b] + ([c] + ([d] + [e]))) == [a, b, c, d, e];
  }

  // ---- sending a query, and closing ---------------------------------------------------------------------

  lemma TCons(s: T.State, step: T.Step, rest: seq<T.Step>, end: T.State)
    requires Q.Closed(s.corr) && T.Enabled(s, step) && T.Runs(T.Apply(s, step), rest, end)
    ensures T.Runs(s, [step] + rest, end)
  {
    hide T.Enabled, T.Apply;
    assert ([step] + rest)[1..] == rest;
  }

  lemma TNil(s: T.State)
    ensures T.Runs(s, [], s)
  {
  }

  /** A query registered and written leaves its sender done and its entry pending. */
  lemma LoneSend(s: T.State, t: T.ThreadId, id: Q.QueryId, deadline: Q.Time)
    requires T.Inv(s) && s.corr.mutex.Free? && t !in s.senders && !s.corr.closed && id !in s.corr.pending
    ensures exists end ::
              && T.Runs(s, [T.SendRegister(t, id, deadline), T.SendWritten(t)], end)
              && end == s.(corr := s.corr.(pending := s.corr.pending[id := |s.corr.queries|],
                                           queries := s.corr.queries
                                                      + [Q.Query(id, deadline, Q.EMPTY_ANSWER, Q.EMPTY_ERROR)]))
  {
    var a := T.Apply(s, T.SendRegister(t, id, deadline));
    T.StepKeepsInv(s, T.SendRegister(t, id, deadline));
    var b := T.Apply(a, T.SendWritten(t));
    assert b.senders == s.senders;
    TNil(b);
    TCons(a, T.SendWritten(t), [], b);
    TCons(s, T.SendRegister(t, id, deadline), [T.SendWritten(t)], b);
    assert [T.SendRegister(t, id, deadline)] + ([T.SendWritten(t)] + [])
        == [T.SendRegister(t, id, deadline), T.SendWritten(t)];
    assert [T.SendWritten(t)] + [] == [T.SendWritten(t)];
  }

  /** If the write fails, the query is failed with the cause and the map is as before. */
  lemma LoneFailedSend(s: T.State, t: T.ThreadId, id: Q.QueryId, deadline: Q.Time, cause: Q.Cause)
    requires T.Inv(s) && s.corr.mutex.Free? && t !in s.senders && t !in s.corr.jobs
    requires !s.corr.closed && id !in s.corr.pending
    ensures exists end ::
              var h := |s.corr.queries|;
              && T.Runs(s, [T.SendRegister(t, id, deadline), T.SendWriteFails(t), T.SendClean(t, cause),
                            T.Corr(Q.SendError(t, h)), T.SendReturnsErr(t)], end)
              && end.corr.pending == s.corr.pending && end.senders == s.senders && end.corr.jobs == s.corr.jobs
              && end.failedSends == s.failedSends + {h}
              && |end.corr.queries| == h + 1 && end.corr.queries[h].err.buffer == [cause]
  {
    hide T.Apply, T.Enabled, T.Inv, T.Runs, Q.Closed;
    var h := |s.corr.queries|;
    var a, b := FailingSend(s, t, id, deadline);
    var c, d, e := FailingClean(b, t, h, cause);
    var last := [T.SendReturnsErr(t)];
    TNil(e);
    TCons(d, T.SendReturnsErr(t), [], e);
    assert [T.SendReturnsErr(t)] + [] == last;
    TCons(c, T.Corr(Q.SendError(t, h)), last, e);
    TCons(b, T.SendClean(t, cause), [T.Corr(Q.SendError(t, h))] + last, e);
    TCons(a, T.SendWriteFails(t), [T.SendClean(t, cause)] + ([T.Corr(Q.SendError(t, h))] + last), e);
    TCons(s, T.SendRegister(t, id, deadline),
          [T.SendWriteFails(t)] + ([T.SendClean(t, cause)] + ([T.Corr(Q.SendError(t, h))] + last)), e);
    FiveSteps(T.SendRegister(t, id, deadline), T.SendWriteFails(t), T.SendClean(t, cause),
              T.Corr(Q.SendError(t, h)), T.SendReturnsErr(t));
    assert s.corr.pending[id := h] - {id} == s.corr.pending;
    assert s.senders[t := T.WriteFailed(h)] - {t} == s.senders;
  }

  lemma FiveSteps(a: T.Step, b: T.Step, c: T.Step, d: T.Step, e: T.Step)
    ensures [a] + ([b] + ([c] + ([d] + [e]))) == [a, b, c, d, e]
  {
  }

  lemma FailingSend(s: T.State, t: T.ThreadId, id: Q.QueryId, deadline: Q.Time) returns (a: T.State, b: T.State)
    requires T.Inv(s) && s.corr.mutex.Free? && t !in s.senders && !s.corr.closed && id !in s.corr.pending
    ensures Q.Closed(s.corr) && T.Enabled(s, T.SendRegister(t, id, deadline))
    ensures a == T.Apply(s, T.SendRegister(t, id, deadline)) && Q.Closed(a.corr) && T.Enabled(a, T.SendWriteFails(t))
    ensures b == T.Apply(a, T.SendWriteFails(t)) && T.Inv(b)
    ensures b.senders == s.senders[t := T.WriteFailed(|s.corr.queries|)] && b.failedSends == s.failedSends
    ensures b.corr == s.corr.(pending := s.corr.pending[id := |s.corr.queries|],
                              queries := s.corr.queries + [Q.Query(id, deadline, Q.EMPTY_ANSWER, Q.EMPTY_ERROR)])
  {
    a := T.Apply(s, T.SendRegister(t, id, deadline));
    T.StepKeepsInv(s, T.SendRegister(t, id, deadline));
    b := T.Apply(a, T.SendWriteFails(t));
    T.StepKeepsInv(a, T.SendWriteFails(t));
  }

  lemma FailingClean(b: T.State, t: T.ThreadId, h: Q.Handle, cause: Q.Cause)
    returns (c: T.State, d: T.State, e: T.State)
    requires T.Inv(b) && b.corr.mutex.Free? && t in b.senders && b.senders[t] == T.WriteFailed(h) && t !in b.corr.jobs
    requires h < |b.corr.queries| && Q.IsPending(b.corr, h) && b.corr.queries[h].err == Q.EMPTY_ERROR
    ensures Q.Closed(b.corr) && T.Enabled(b, T.SendClean(t, cause)) && c == T.Apply(b, T.SendClean(t, cause))
    ensures Q.Closed(c.corr) && T.Enabled(c, T.Corr(Q.SendError(t, h))) && d == T.Apply(c, T.Corr(Q.SendError(t, h)))
    ensures Q.Closed(d.corr) && T.Enabled(d, T.SendReturnsErr(t)) && e == T.Apply(d, T.SendReturnsErr(t))
    ensures e.corr.pending == b.corr.pending - {b.corr.queries[h].id} && e.senders == b.senders - {t}
    ensures e.corr.jobs == b.corr.jobs && e.failedSends == b.failedSends + {h}
    ensures |e.corr.queries| == |b.corr.queries| && e.corr.queries[h].err.buffer == [cause]
  {
    c := T.Apply(b, T.SendClean(t, cause));
    T.StepKeepsInv(b, T.SendClean(t, cause));
    assert c.corr.jobs[t] == Q.Failing({h}, cause, Q.FromFail);
    d := T.Apply(c, T.Corr(Q.SendError(t, h)));
    T.StepKeepsInv(c, T.Corr(Q.SendError(t, h)));
    assert d.corr.jobs == b.corr.jobs;
    e := T.Apply(d, T.SendReturnsErr(t));
  }

  /** Closing an idle transport. */
  lemma LoneClose(t: T.ThreadId, cause: Q.Cause)
    ensures exists end ::
              && T.Runs(T.INITIAL, [T.CloseClaim(t, cause), T.StoreErr, T.CloseConn, T.FailAll, T.Fire], end)
              && end.fired && end.closeErr == T.Because(cause) && end.corr.closed
  {
    var a := T.Apply(T.INITIAL, T.CloseClaim(t, cause));
    var b := T.Apply(a, T.StoreErr);
    var c := T.Apply(b, T.CloseConn);
    var d := T.Apply(c, T.FailAll);
    var e := T.Apply(d, T.Fire);
    assert Q.Closed(d.corr) && Q.Closed(a.corr) && Q.Closed(b.corr) && Q.Closed(c.corr);
    hide T.Apply, T.Enabled;
    TNil(e);
    TCons(d, T.Fire, [], e);
    assert [T.Fire] + [] == [T.Fire];
    TCons(c, T.FailAll, [T.Fire], e);
    TCons(b, T.CloseConn, [T.FailAll] + [T.Fire], e);
    TCons(a, T.StoreErr, [T.CloseConn] + ([T.FailAll] + [T.Fire]), e);
    TCons(T.INITIAL, T.CloseClaim(t, cause), [T.StoreErr] + ([T.CloseConn] + ([T.FailAll] + [T.Fire])), e);
    FiveSteps(T.CloseClaim(t, cause), T.StoreErr, T.CloseConn, T.FailAll, T.Fire);
  }

  // ---- a stream -----------------------------------------------------------------------------------------

  lemma SCons(s: S.State, step: S.Step, rest: seq<S.Step>, end: S.State)
    requires S.Named(s) && S.Enabled(s, step) && S.Runs(S.Apply(s, step), rest, end)
    ensures S.Runs(s, [step] + rest, end)
  {
    hide S.Enabled, S.Apply, S.Named;
    assert ([step] + rest)[1..] == rest;
  }

  lemma SNil(s: S.State)
    ensures S.Runs(s, [], s)
  {
  }

  /** A chunk of an opened stream is routed to it, buffered, and received; the stream stays open. */
  lemma OneChunk(c: S.Chunk)
    requires !c.isFinal
    ensures exists end ::
              && S.Runs(S.INITIAL, [S.Open(c.requestId), S.Packet(c), S.Move(S.READER), S.Move(S.READER),
                                    S.Move(S.READER), S.Move(S.READER), S.Consume(0)], end)
              && end.streams == [S.Stream(c.requestId, [], [c], 0, 0, S.Free, S.Fresh, [c],
                                          [S.Attempt(c, true, 0, false)])]
              && end.routes == map[c.requestId := 0] && end.Phase(S.READER).Idle? && !end.panicked
  {
    var r := S.READER;
    var st := S.Stream(c.requestId, [], [], 0, 0, S.Free, S.Fresh, [c], []);
    var held := st.(sendMu := S.HeldBy(r));
    var sent := held.(buffer := [c], log := [S.Attempt(c, true, 0, false)]);
    var a := At(S.Stream(c.requestId, [], [], 0, 0, S.Free, S.Fresh, [], []), map[]);
    var b := At(st, map[r := S.Sending(0, c, false)]);
    var d := At(held, map[r := S.Locked(0, c, false)]);
    var e := At(held, map[r := S.Checked(0, c, false)]);
    var f := At(sent, map[r := S.Sent(0, false)]);
    var g := At(sent.(sendMu := S.Free), map[r := S.Idle]);
    var h := At(sent.(sendMu := S.Free, buffer := [], taken := [c]), map[r := S.Idle]);
    ChunkSteps(c, a, b, d, e, f, g, h);
    hide S.Apply, S.Enabled, S.Named;
    var tail := [S.Consume(0)];
    SNil(h);
    SCons(g, S.Consume(0), [], h);
    assert [S.Consume(0)] + [] == tail;
    SCons(f, S.Move(r), tail, h);
    SCons(e, S.Move(r), [S.Move(r)] + tail, h);
    SCons(d, S.Move(r), [S.Move(r)] + ([S.Move(r)] + tail), h);
    SCons(b, S.Move(r), [S.Move(r)] + ([S.Move(r)] + ([S.Move(r)] + tail)), h);
    SCons(a, S.Packet(c), [S.Move(r)] + ([S.Move(r)] + ([S.Move(r)] + ([S.Move(r)] + tail))), h);
    SCons(S.INITIAL, S.Open(c.requestId),
          [S.Packet(c)] + ([S.Move(r)] + ([S.Move(r)] + ([S.Move(r)] + ([S.Move(r)] + tail)))), h);
    assert [S.Open(c.requestId)]
           + ([S.Packet(c)] + ([S.Move(r)] + ([S.Move(r)] + ([S.Move(r)] + ([S.Move(r)] + tail)))))
        == [S.Open(c.requestId), S.Packet(c), S.Move(r), S.Move(r), S.Move(r), S.Move(r), S.Consume(0)];
  }

  function At(st: S.Stream, phases: map<S.ThreadId, S.Phase>): S.State {
    S.State(map[st.requestId := 0], [st], phases, false)
  }

  lemma ChunkSteps(c: S.Chunk, a: S.State, b: S.State, d: S.State, e: S.State, f: S.State, g: S.State, h: S.State)
    requires !c.isFinal
    requires a == At(S.Stream(c.requestId, [], [], 0, 0, S.Free, S.Fresh, [], []), map[])
    requires var st := S.Stream(c.requestId, [], [], 0, 0, S.Free, S.Fresh, [c], []);
             var held := st.(sendMu := S.HeldBy(S.READER));
             var sent := held.(buffer := [c], log := [S.Attempt(c, true, 0, false)]);
             && b == At(st, map[S.READER := S.Sending(0, c, false)])
             && d == At(held, map[S.READER := S.Locked(0, c, false)])
             && e == At(held, map[S.READER := S.Checked(0, c, false)])
             && f == At(sent, map[S.READER := S.Sent(0, false)])
             && g == At(sent.(sendMu := S.Free), map[S.READER := S.Idle])
             && h == At(sent.(sendMu := S.Free, buffer := [], taken := [c]), map[S.READER := S.Idle])
    ensures S.Named(S.INITIAL) && S.Enabled(S.INITIAL, S.Open(c.requestId))
    ensures S.Apply(S.INITIAL, S.Open(c.requestId)) == a
    ensures S.Named(a) && S.Enabled(a, S.Packet(c)) && S.Apply(a, S.Packet(c)) == b
    ensures S.Named(b) && S.Enabled(b, S.Move(S.READER)) && S.Apply(b, S.Move(S.READER)) == d
    ensures S.Named(d) && S.Enabled(d, S.Move(S.READER)) && S.Apply(d, S.Move(S.READER)) == e
    ensures S.Named(e) && S.Enabled(e, S.Move(S.READER)) && S.Apply(e, S.Move(S.READER)) == f
    ensures S.Named(f) && S.Enabled(f, S.Move(S.READER)) && S.Apply(f, S.Move(S.READER)) == g
    ensures S.Named(g) && S.Enabled(g, S.Consume(0)) && S.Apply(g, S.Consume(0)) == h
  {
    hide S.NextStream, S.NextPhase, S.Panics, S.Apply, S.Enabled, S.Named;
    OpenAndPacket(c);
    ConsumeOne(g.streams[0], c);
    ChunkPhases(c, b.streams[0], d.streams[0], f.streams[0]);
    CanGo(b.streams[0], d.streams[0], f.streams[0], c);
    MoveIs(b.streams[0], S.Sending(0, c, false));
    MoveIs(d.streams[0], S.Locked(0, c, false));
    MoveIs(e.streams[0], S.Checked(0, c, false));
    MoveIs(f.streams[0], S.Sent(0, false));
  }

  lemma CanGo(st: S.Stream, held: S.Stream, sent: S.Stream, c: S.Chunk)
    requires st.sendMu.Free?
    ensures S.CanAdvance(st, S.Sending(0, c, false)) && S.CanAdvance(held, S.Locked(0, c, false))
    ensures S.CanAdvance(held, S.Checked(0, c, false)) && S.CanAdvance(sent, S.Sent(0, false))
  {
  }

  lemma OpenAndPacket(c: S.Chunk)
    requires !c.isFinal
    ensures var a := At(S.Stream(c.requestId, [], [], 0, 0, S.Free, S.Fresh, [], []), map[]);
            var st := S.Stream(c.requestId, [], [], 0, 0, S.Free, S.Fresh, [c], []);
            && S.Named(S.INITIAL) && S.Enabled(S.INITIAL, S.Open(c.requestId))
            && S.Apply(S.INITIAL, S.Open(c.requestId)) == a
            && S.Named(a) && S.Enabled(a, S.Packet(c))
            && S.Apply(a, S.Packet(c)) == At(st, map[S.READER := S.Sending(0, c, false)])
  {
    var a := At(S.Stream(c.requestId, [], [], 0, 0, S.Free, S.Fresh, [], []), map[]);
    assert S.Apply(S.INITIAL, S.Open(c.requestId)).streams == a.streams;
    assert S.Apply(S.INITIAL, S.Open(c.requestId)).routes == a.routes;
    assert S.Apply(a, S.Packet(c)).streams[0].arrivals == [c];
    assert S.Apply(a, S.Packet(c)).streams == [S.Stream(c.requestId, [], [], 0, 0, S.Free, S.Fresh, [c], [])];
    assert S.Apply(a, S.Packet(c)).phases == map[S.READER := S.Sending(0, c, false)];
  }

  lemma ConsumeOne(st: S.Stream, c: S.Chunk)
    requires st.buffer == [c] && st.taken == []
    ensures var g := At(st, map[S.READER := S.Idle]);
            && S.Named(g) && S.Enabled(g, S.Consume(0))
            && S.Apply(g, S.Consume(0)) == At(st.(buffer := [], taken := [c]), map[S.READER := S.Idle])
  {
    var g := At(st, map[S.READER := S.Idle]);
    assert [c][1..] == [] && [] + [c] == [c];
    assert S.Apply(g, S.Consume(0)).streams == [st.(buffer := [], taken := [c])];
  }

  lemma ChunkPhases(c: S.Chunk, st: S.Stream, held: S.Stream, sent: S.Stream)
    requires st.sendMu.Free? && st.doneCloses == 0 && st.outCloses == 0 && st.buffer == [] && st.log == []
    requires held == st.(sendMu := S.HeldBy(S.READER))
    requires sent == held.(buffer := [c], log := [S.Attempt(c, true, 0, false)])
    ensures S.NextStream(S.READER, st, S.Sending(0, c, false)) == held
    ensures S.NextPhase(st, S.Sending(0, c, false)) == S.Locked(0, c, false)
    ensures S.NextStream(S.READER, held, S.Locked(0, c, false)) == held
    ensures S.NextPhase(held, S.Locked(0, c, false)) == S.Checked(0, c, false)
    ensures S.NextStream(S.READER, held, S.Checked(0, c, false)) == sent
    ensures S.NextPhase(held, S.Checked(0, c, false)) == S.Sent(0, false)
    ensures S.NextStream(S.READER, sent, S.Sent(0, false)) == sent.(sendMu := S.Free)
    ensures S.NextPhase(sent, S.Sent(0, false)) == S.Idle
    ensures !S.Panics(st, S.Sending(0, c, false)) && !S.Panics(held, S.Locked(0, c, false))
    ensures !S.Panics(held, S.Checked(0, c, false)) && !S.Panics(sent, S.Sent(0, false))
  {
  }

  /** The reader's move when there is one stream and nobody else is about. */
  lemma MoveIs(st: S.Stream, p: S.Phase)
    requires !p.Idle? && p.s == 0 && !p.Deleting? && S.CanAdvance(st, p)
    requires S.NextPhase(st, p).Idle? || S.NextPhase(st, p).s == 0
    requires !S.Panics(st, p) && S.NextStream(S.READER, st, p).requestId == st.requestId
    ensures var s := At(st, map[S.READER := p]);
            && S.Named(s) && S.Enabled(s, S.Move(S.READER))
            && S.Apply(s, S.Move(S.READER)) == At(S.NextStream(S.READER, st, p), map[S.READER := S.NextPhase(st, p)])
  {
    hide S.NextStream, S.NextPhase, S.Panics;
    var s := At(st, map[S.READER := p]);
    assert S.Apply(s, S.Move(S.READER)).phases == map[S.READER := S.NextPhase(st, p)];
    assert S.Apply(s, S.Move(S.READER)).streams == [S.NextStream(S.READER, st, p)];
  }
}
