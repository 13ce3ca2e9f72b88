/**
 The transport around the correlator: how sending a query and closing the session interleave.
 closeWithErr runs its body once; the body stores the cause, closes the connection, fails
 every pending query and only then closes the `closed` channel, one step each.
 */
module Transport {
  import opened Bytes
  import opened TCPPacket
  import opened Frame
  import Q = QueryCorrelator

  type ThreadId = Q.ThreadId
  type Handle = Q.Handle

  datatype Once =
    | NotStarted
    | Claimed(t: ThreadId, cause: Q.Cause)
    | ErrStored(t: ThreadId, cause: Q.Cause)
    | ConnClosed(t: ThreadId, cause: Q.Cause)
    | Draining(t: ThreadId, cause: Q.Cause)
    | Done

  datatype CloseErr = NoErr | Because(cause: Q.Cause)

  /** A SendQuery in progress, after it has registered its query. */
  datatype Sender = Registered(handle: Handle) | WriteFailed(handle: Handle) | Cleaning(handle: Handle)

  datatype State = State(
    corr: Q.State, once: Once, closeErr: CloseErr, fired: bool,
    senders: map<ThreadId, Sender>, failedSends: set<Handle>,
    drained: set<Handle>)                                       // the queries the shutdown took out of the map

  const INITIAL := State(Q.INITIAL, NotStarted, NoErr, false, map[], {}, {})

  datatype Step =
    | Corr(step: Q.Step)                                        // read loop, sweeper, receivers, and sends still owed
    | SendRegister(t: ThreadId, id: Q.QueryId, deadline: Q.Time)
    | SendWritten(t: ThreadId)
    | SendWriteFails(t: ThreadId)
    | SendClean(t: ThreadId, cause: Q.Cause)
    | SendReturnsErr(t: ThreadId)
    | CloseClaim(t: ThreadId, cause: Q.Cause) | StoreErr | CloseConn | FailAll | Fire

  ghost predicate Enabled(s: State, step: Step)
    requires Q.Closed(s.corr)
  {
    match step
    case Corr(c) => !c.TakeAll? && Q.Enabled(s.corr, c)
    case SendRegister(t, id, d) => t !in s.senders && Q.Enabled(s.corr, Q.Register(id, d))
    case SendWritten(t) => t in s.senders && s.senders[t].Registered?
    case SendWriteFails(t) => t in s.senders && s.senders[t].Registered?
    case SendClean(t, cause) =>
      t in s.senders && s.senders[t].WriteFailed? && s.senders[t].handle < |s.corr.queries| &&
      Q.Enabled(s.corr, Q.TakeForError(t, s.corr.queries[s.senders[t].handle].id, cause))
    case SendReturnsErr(t) => t in s.senders && s.senders[t].Cleaning? && t !in s.corr.jobs
    case CloseClaim(_, _) => s.once.NotStarted?
    case StoreErr => s.once.Claimed?
    case CloseConn => s.once.ErrStored?
    case FailAll => s.once.ConnClosed? && Q.Enabled(s.corr, Q.TakeAll(s.once.t, s.once.cause))
    case Fire => s.once.Draining? && s.once.t !in s.corr.jobs
  }

  ghost function Apply(s: State, step: Step): State
    requires Q.Closed(s.corr) && Enabled(s, step)
  {
    match step
    case Corr(c) => s.(corr := Q.Apply(s.corr, c))
    case SendRegister(t, id, d) =>
      var corr := Q.Apply(s.corr, Q.Register(id, d));
      if corr == s.corr then s else s.(corr := corr, senders := s.senders[t := Registered(|s.corr.queries|)])
    case SendWritten(t) => s.(senders := s.senders - {t})
    case SendWriteFails(t) => s.(senders := s.senders[t := WriteFailed(s.senders[t].handle)])
    case SendClean(t, cause) =>
      var h := s.senders[t].handle;
      s.(corr := Q.Apply(s.corr, Q.TakeForError(t, s.corr.queries[h].id, cause)),
          senders := s.senders[t := Cleaning(h)])
    case SendReturnsErr(t) => s.(senders := s.senders - {t}, failedSends := s.failedSends + {s.senders[t].handle})
    case CloseClaim(t, cause) => s.(once := Claimed(t, cause))
    case StoreErr => s.(once := ErrStored(s.once.t, s.once.cause), closeErr := Because(s.once.cause))
    case CloseConn => s.(once := ConnClosed(s.once.t, s.once.cause))
    case FailAll =>
      s.(once := Draining(s.once.t, s.once.cause), corr := Q.Apply(s.corr, Q.TakeAll(s.once.t, s.once.cause)),
         drained := Q.Handles(s.corr.pending))
    case Fire => s.(once := Done, fired := true)
  }

  ghost predicate Runs(s: State, steps: seq<Step>, end: State)
    decreases |steps|
  {
    if steps == [] then end == s
    else Q.Closed(s.corr) && Enabled(s, steps[0]) && Runs(Apply(s, steps[0]), steps[1..], end)
  }

  // ---- the invariant ----------------------------------------------------------------------

  /** Registered once, and out of the map for good. */
  ghost predicate Gone(c: Q.State, h: Handle) { h < |c.queries| && !Q.IsPending(c, h) }

  ghost predicate CloseInv(s: State) {
    && (s.fired <==> s.once.Done?)
    && (s.corr.closed <==> s.once.Draining? || s.once.Done?)
    && (s.once.NotStarted? || s.once.Claimed? <==> s.closeErr.NoErr?)
    && (s.once.ErrStored? || s.once.ConnClosed? || s.once.Draining? ==> s.closeErr == Because(s.once.cause))
  }

  ghost predicate SendInv(s: State) {
    && (forall t :: t in s.senders ==> s.senders[t].handle < |s.corr.queries|)
    && (forall t :: t in s.senders && s.senders[t].Cleaning? ==> Gone(s.corr, s.senders[t].handle))
    && (forall h :: h in s.failedSends ==> Gone(s.corr, h))
  }

  predicate IsDrain(j: Q.Job) { j.Failing? && j.origin.FromFailAll? }

  ghost predicate FailedWith(c: Q.State, h: Handle, cause: Q.Cause) {
    h < |c.queries| && c.queries[h].answer.sent == [] && c.queries[h].err.sent == [cause]
  }

  /** The shutdown's own job still has to fail this query. */
  ghost predicate ToDrain(c: Q.State, t: ThreadId, h: Handle) {
    t in c.jobs && IsDrain(c.jobs[t]) && h in c.jobs[t].todo
  }

  /** Only the closing thread drains, with the stored cause; what it took is failed with it or still to be. */
  ghost predicate DrainInv(s: State) {
    && (forall t :: t in s.corr.jobs && IsDrain(s.corr.jobs[t]) ==>
          s.once.Draining? && t == s.once.t && s.corr.jobs[t].cause == s.once.cause)
    && (s.drained != {} ==> s.once.Draining? || s.once.Done?)
    && (forall h :: h in s.drained ==>
          || (s.once.Draining? && ToDrain(s.corr, s.once.t, h))
          || (s.closeErr.Because? && FailedWith(s.corr, h, s.closeErr.cause)))
  }

  ghost predicate Inv(s: State) { Q.Inv(s.corr) && CloseInv(s) && SendInv(s) && DrainInv(s) }

  /** What a correlator step cannot do: shrink the record, revive an entry, or undo the shutdown. */
  lemma CorrStepIsMonotone(c: Q.State, step: Q.Step)
    requires Q.Inv(c) && Q.Enabled(c, step)
    ensures var c' := Q.Apply(c, step);
            && |c.queries| <= |c'.queries|
            && (forall h: Handle :: Gone(c, h) ==> Gone(c', h))
            && (c'.closed <==> c.closed || step.TakeAll?)
            && (c.closed ==> |c'.queries| == |c.queries|)
  {
    if step.SendAnswer? {
      assert Q.Holds(c, step.t, c.jobs[step.t].handle);
    } else if step.SendError? {
      assert Q.Holds(c, step.t, step.handle);
    }
  }

  /** Failing the id of a query takes that query out of the map, if it was still there. */
  lemma CleanedIsGone(c: Q.State, t: ThreadId, h: Handle, cause: Q.Cause)
    requires Q.Inv(c) && h < |c.queries| && Q.Enabled(c, Q.TakeForError(t, c.queries[h].id, cause))
    ensures Gone(Q.Apply(c, Q.TakeForError(t, c.queries[h].id, cause)), h)
  {
  }

  /** What a correlator step does to queries already failed and to a drain under way. */
  lemma CorrStepDrains(c: Q.State, step: Q.Step)
    requires Q.Inv(c) && Q.Enabled(c, step) && !step.TakeAll?
    ensures var c' := Q.Apply(c, step);
            && (forall h: Handle, cause :: FailedWith(c, h, cause) ==> FailedWith(c', h, cause))
            && (forall t :: t in c'.jobs && IsDrain(c'.jobs[t]) ==>
                  t in c.jobs && IsDrain(c.jobs[t]) && c'.jobs[t].cause == c.jobs[t].cause)
            && (forall t, h: Handle :: ToDrain(c, t, h) ==> ToDrain(c', t, h) || FailedWith(c', h, c.jobs[t].cause))
  {
    if step.SendAnswer? {
      var h := c.jobs[step.t].handle;
      assert Q.Holds(c, step.t, h) && Q.IsHeld(c, h) && Q.OnceEach(c, h);
    } else if step.SendError? {
      var h := step.handle;
      assert Q.Holds(c, step.t, h) && Q.IsHeld(c, h) && Q.OnceEach(c, h);
    }
  }

  lemma TakeAllDrains(c: Q.State, t: ThreadId, cause: Q.Cause)
    requires Q.Inv(c) && Q.Enabled(c, Q.TakeAll(t, cause))
    requires forall u :: u in c.jobs ==> !IsDrain(c.jobs[u])
    ensures var c' := Q.Apply(c, Q.TakeAll(t, cause));
            && (forall u :: u in c'.jobs && IsDrain(c'.jobs[u]) ==> u == t && c'.jobs[u].cause == cause)
            && (forall h :: h in Q.Handles(c.pending) ==> ToDrain(c', t, h))
  {
  }

  lemma DrainOver(s: State, s': State, c: Q.Step)
    requires Inv(s) && Q.Enabled(s.corr, c) && !c.TakeAll?
    requires s'.corr == Q.Apply(s.corr, c) && s'.once == s.once && s'.closeErr == s.closeErr && s'.drained == s.drained
    ensures DrainInv(s')
  {
    hide Q.Inv, Q.Apply, Q.Enabled, FailedWith, SendInv, IsDrain;
    CorrStepDrains(s.corr, c);
  }

  lemma DrainKept(s: State, step: Step)
    requires Inv(s) && Enabled(s, step)
    ensures DrainInv(Apply(s, step))
  {
    var s' := Apply(s, step);
    hide Q.Inv, Q.Apply, Q.Enabled, FailedWith, ToDrain, SendInv, IsDrain;
    match step
    case Corr(c) => DrainOver(s, s', c);
    case SendRegister(t, id, d) => DrainOver(s, s', Q.Register(id, d));
    case SendClean(t, cause) => DrainOver(s, s', Q.TakeForError(t, s.corr.queries[s.senders[t].handle].id, cause));
    case FailAll => TakeAllDrains(s.corr, s.once.t, s.once.cause);
    case Fire => NothingToDrain(s.corr, s.once.t);
    case _ =>
  }

  lemma NothingToDrain(c: Q.State, t: ThreadId)
    requires t !in c.jobs
    ensures forall h: Handle :: !ToDrain(c, t, h)
  {
  }

  lemma StepKeepsInv(s: State, step: Step)
    requires Inv(s) && Enabled(s, step)
    ensures Inv(Apply(s, step))
    ensures s.closeErr.Because? ==> Apply(s, step).closeErr == s.closeErr
    ensures s.corr.closed ==> |Apply(s, step).corr.queries| == |s.corr.queries|
  {
    hide Q.Inv, Q.Apply, Q.Enabled, Gone, DrainInv;
    DrainKept(s, step);
    match step
    case Corr(c) =>
      Q.StepKeepsInv(s.corr, c);
      CorrStepIsMonotone(s.corr, c);
    case SendRegister(t, id, d) =>
      Q.StepKeepsInv(s.corr, Q.Register(id, d));
      CorrStepIsMonotone(s.corr, Q.Register(id, d));
      RegisterAdds(s.corr, id, d);
    case SendClean(t, cause) =>
      var h := s.senders[t].handle;
      var c := Q.TakeForError(t, s.corr.queries[h].id, cause);
      Q.StepKeepsInv(s.corr, c);
      CorrStepIsMonotone(s.corr, c);
      CleanedIsGone(s.corr, t, h, cause);
    case FailAll =>
      var c := Q.TakeAll(s.once.t, s.once.cause);
      Q.StepKeepsInv(s.corr, c);
      CorrStepIsMonotone(s.corr, c);
    case _ =>
  }

  lemma RegisterAdds(c: Q.State, id: Q.QueryId, deadline: Q.Time)
    requires Q.Inv(c) && Q.Enabled(c, Q.Register(id, deadline))
    ensures var c' := Q.Apply(c, Q.Register(id, deadline)); c' != c ==> !c.closed && |c'.queries| == |c.queries| + 1
  {
  }

  lemma InvInitially()
    ensures Inv(INITIAL)
  {
    Q.InvInitially();
  }

  lemma {:induction false} RunsKeepInv(s: State, steps: seq<Step>, end: State)
    requires Inv(s) && Runs(s, steps, end)
    ensures Inv(end)
    ensures s.closeErr.Because? ==> end.closeErr == s.closeErr
    ensures s.corr.closed ==> end.corr.closed && |end.corr.queries| == |s.corr.queries|
    decreases |steps|
  {
    hide Apply, Enabled, SendInv, DrainInv;
    if steps != [] {
      StepKeepsInv(s, steps[0]);
      ClosedStays(s, steps[0]);
      RunsKeepInv(Apply(s, steps[0]), steps[1..], end);
    }
  }

  lemma ClosedStays(s: State, step: Step)
    requires Inv(s) && Enabled(s, step)
    ensures s.corr.closed ==> Apply(s, step).corr.closed
  {
  }

  // ---- what Closed() promises -------------------------------------------------------------

  /**
   Once the closed channel is closed, the cause is known and nothing is pending. The shutdown has
   finished: everything it took out of the map has been failed, exactly once and with that cause.
   Every other query ever registered has been resolved once too, or is in the hands of a deliver,
   a fail or a sweep under way.
   */
  lemma FiredMeansDrained(steps: seq<Step>, s: State)
    requires Runs(INITIAL, steps, s) && s.fired
    ensures s.closeErr.Because? && s.corr.closed && s.corr.pending == map[]
    ensures forall h :: h in s.drained ==> FailedWith(s.corr, h, s.closeErr.cause)
    ensures forall t :: t in s.corr.jobs ==>
              s.corr.jobs[t].Answering? || s.corr.jobs[t].origin.FromFail? || s.corr.jobs[t].origin.FromSweep?
    ensures forall h: Handle :: h < |s.corr.queries| ==>
              var q := s.corr.queries[h]; Q.IsHeld(s.corr, h) || Q.IsAnswered(q) || Q.IsFailed(q)
  {
    InvInitially();
    RunsKeepInv(INITIAL, steps, s);
    forall h: Handle | h < |s.corr.queries|
      ensures var q := s.corr.queries[h]; Q.IsHeld(s.corr, h) || Q.IsAnswered(q) || Q.IsFailed(q)
    {
      assert Q.OnceEach(s.corr, h);
    }
    forall t | t in s.corr.jobs
      ensures !IsDrain(s.corr.jobs[t])
    {
    }
  }

  /** What the shutdown takes is what was pending at that moment, and from then on nothing is. */
  lemma ShutdownTakesAll(steps: seq<Step>, s: State, h: Handle)
    requires Runs(INITIAL, steps, s) && Q.Closed(s.corr) && Enabled(s, FailAll) && h < |s.corr.queries|
    ensures h in Apply(s, FailAll).drained <==> Q.IsPending(s.corr, h)
    ensures !Q.IsPending(Apply(s, FailAll).corr, h)
  {
    InvInitially();
    RunsKeepInv(INITIAL, steps, s);
    assert s.corr.queries[h].id in s.corr.pending ==> s.corr.pending[s.corr.queries[h].id] in Q.Handles(s.corr.pending);
  }

  /** From then on, whatever runs: the cause stays, the map stays empty, no query is ever added. */
  lemma FiredIsFinal(steps: seq<Step>, s: State, more: seq<Step>, end: State)
    requires Runs(INITIAL, steps, s) && s.fired && Runs(s, more, end)
    ensures end.fired && end.closeErr == s.closeErr
    ensures end.corr.pending == map[] && |end.corr.queries| == |s.corr.queries|
  {
    InvInitially();
    RunsKeepInv(INITIAL, steps, s);
    RunsKeepInv(s, more, end);
    FiredStays(s, more, end);
  }

  lemma {:induction false} FiredStays(s: State, steps: seq<Step>, end: State)
    requires s.fired && Runs(s, steps, end)
    ensures end.fired
    decreases |steps|
  {
    if steps != [] {
      FiredStays(Apply(s, steps[0]), steps[1..], end);
    }
  }

  /** A SendQuery that gave up leaves no entry of its own behind, now or later. */
  lemma FailedSendLeavesNothing(steps: seq<Step>, s: State, h: Handle)
    requires Runs(INITIAL, steps, s) && h in s.failedSends
    ensures h < |s.corr.queries| && !Q.IsPending(s.corr, h)
  {
    InvInitially();
    RunsKeepInv(INITIAL, steps, s);
  }

  /**
   The same for the query id. A send whose write failed clears its id, whoever holds it by then; a
   send that is refused leaves the map alone, so there the id stays pending exactly if another
   query was using it.
   */
  lemma FailedSendAndItsId(steps: seq<Step>, s: State, step: Step)
    requires Runs(INITIAL, steps, s) && Q.Closed(s.corr) && Enabled(s, step)
    ensures step.SendClean? ==> s.corr.queries[s.senders[step.t].handle].id !in Apply(s, step).corr.pending
    ensures step.SendRegister? && Apply(s, step).senders == s.senders ==>
              && Apply(s, step) == s && (s.corr.closed || step.id in s.corr.pending)
              && (step.id in Apply(s, step).corr.pending <==> !s.corr.closed)
  {
    InvInitially();
    RunsKeepInv(INITIAL, steps, s);
  }

  // ---- the operations as the source runs them -----------------------------------------------

  class Transport {
    const corr: Q.Correlator
    const frames: FramedConn
    var closeOnce: bool
    var closeErr: CloseErr
    var closed: bool

    constructor (c: Q.Correlator, f: FramedConn)
      ensures corr == c && frames == f && !closed && closeErr == NoErr && !closeOnce
    {
      corr, frames, closeOnce, closeErr, closed := c, f, false, NoErr, false;
    }

    /** On error the map of pending queries is what it was; on success the frame is on the wire. */
    method SendQuery(ghost t: ThreadId, id: Q.QueryId, body: seq<byte>, deadline: Q.Time, room: nat)
      returns (handle: Handle, ok: bool)
      requires Q.Inv(corr.View()) && t !in corr.jobs
      modifies corr`pending, corr`queries, frames`outgoing, frames`outSeqno
      ensures Q.Inv(corr.View())
      ensures var payload := EncPacket(Query(id, body));
              && (ok <==> !corr.closed && id !in old(corr.pending) && Sized(payload) && 8 + |payload| <= room)
              && (ok ==> frames.outgoing == old(frames.outgoing) + EncFrame(old(frames.outSeqno), payload))
      ensures ok ==>
                && handle == |old(corr.queries)| && corr.pending == old(corr.pending)[id := handle]
                && corr.queries == old(corr.queries) + [Q.Query(id, deadline, Q.EMPTY_ANSWER, Q.EMPTY_ERROR)]
      ensures !ok ==> corr.pending == old(corr.pending)
      ensures corr.closed || id in old(corr.pending) ==>
                && corr.queries == old(corr.queries)
                && frames.outgoing == old(frames.outgoing) && frames.outSeqno == old(frames.outSeqno)
      ensures !ok && !corr.closed && id !in old(corr.pending) ==>
                corr.queries == old(corr.queries)
                                + [Q.Query(id, deadline, Q.EMPTY_ANSWER, Q.Channel([Q.Other(0)], [Q.Other(0)], 0))]
    {
      hide Q.Inv, Q.Runs, EncPacket, EncFrame;
      ghost var steps, v0 := [], corr.View();
      handle, ok, steps := corr.Register(id, deadline);
      Q.RunsKeepInv(v0, steps, corr.View());
      if !ok {
        return;
      }
      var payload := EncodeTCPQuery(id, body);
      ok := frames.WriteFrame(payload, room);
      if !ok {
        ghost var v1 := corr.View();
        var found;
        found, steps := corr.Fail(t, id, Q.Other(0));
        Q.RunsKeepInv(v1, steps, corr.View());
        assert corr.pending == old(corr.pending);
      }
    }

    /** The first caller shuts everything down; every later call changes nothing. */
    method CloseWithErr(ghost t: ThreadId, cause: Q.Cause)
      requires Q.Inv(corr.View()) && t !in corr.jobs
      modifies this`closeOnce, this`closeErr, this`closed, corr`pending, corr`queries, corr`closed
      ensures closeOnce
      ensures old(closeOnce) ==> closeErr == old(closeErr) && closed == old(closed) && corr.View() == old(corr.View())
      ensures !old(closeOnce) ==>
                && closed && closeErr == Because(cause) && corr.closed && corr.pending == map[]
                && |corr.queries| == |old(corr.queries)|
                && forall id :: id in old(corr.pending) ==> corr.queries[old(corr.pending)[id]].err.buffer == [cause]
    {
      if closeOnce {
        return;
      }
      closeOnce := true;
      closeErr := Because(cause);
      ghost var steps := corr.FailAll(t, cause);
      closed := true;
    }
  }
}
