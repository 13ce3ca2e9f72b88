/**
 How streams end. A final chunk gets its stream closed, a closed stream is no longer routed to, and
 nothing is added to it afterwards; over the step system of the streams.
 */
module StreamEnds {
  import opened Streams

  predicate PastDelete(p: Phase) { p.CloseWaiting? || p.CloseLocked? || p.DoneClosed? || p.OutClosed? }

  /** The close body has got past deleting the route. */
  predicate Deleted(s: State, i: StreamId)
    requires i < |s.streams|
  {
    s.streams[i].once.Done? || PastDelete(Closer(s, s.streams[i]))
  }

  ghost predicate Unrouted(s: State, i: StreamId) { forall r :: r in s.routes ==> s.routes[r] != i }

  ghost predicate DeleteInv(s: State, i: StreamId)
    requires i < |s.streams|
  {
    Deleted(s, i) ==> Unrouted(s, i)
  }

  /** This thread is on its way to close stream `i`. */
  predicate WillClose(p: Phase, i: StreamId) {
    match p
    case Sending(s, _, thenClose) => s == i && thenClose
    case Locked(s, _, thenClose) => s == i && thenClose
    case Checked(s, _, thenClose) => s == i && thenClose
    case Sent(s, thenClose) => s == i && thenClose
    case Closing(s) => s == i
    case _ => false
  }

  ghost predicate FinalArrived(st: Stream) { exists c :: c in st.arrivals && c.isFinal }
  ghost predicate FinalTried(st: Stream) { exists a :: a in st.log && a.chunk.isFinal }

  /** A final chunk, from the read loop or from a watcher, is followed by a close. */
  ghost predicate FinalInv(s: State, i: StreamId)
    requires i < |s.streams|
  {
    var st := s.streams[i];
    && (FinalArrived(st) ==> !st.once.Fresh? || WillClose(s.Phase(READER), i))
    && (FinalTried(st) ==> !st.once.Fresh? || exists t: ThreadId :: WillClose(s.Phase(t), i))
  }

  ghost predicate OfferInv(s: State) {
    forall t: ThreadId :: s.Phase(t).Offering() && s.Phase(t).chunk.isFinal ==> s.Phase(t).thenClose
  }

  ghost predicate EndInv(s: State) {
    Inv(s) && OfferInv(s) && forall i: StreamId :: i < |s.streams| ==> DeleteInv(s, i) && FinalInv(s, i)
  }

  // ---- every step keeps it ---------------------------------------------------------------------------

  lemma PhasesAfter(s: State, step: Step)
    requires Named(s) && Enabled(s, step)
    ensures step.Open? || step.Consume? ==> forall t: ThreadId :: Apply(s, step).Phase(t) == s.Phase(t)
    ensures step.Packet? ==> forall t: ThreadId :: t != READER ==> Apply(s, step).Phase(t) == s.Phase(t)
    ensures step.Watch? || step.SendFailed? || step.Move? ==>
              forall t: ThreadId :: t != step.t ==> Apply(s, step).Phase(t) == s.Phase(t)
    ensures step.Move? ==> Apply(s, step).Phase(step.t) == NextPhase(s.streams[s.Phase(step.t).s], s.Phase(step.t))
  {
  }

  lemma OffersKept(s: State, step: Step)
    requires Inv(s) && Enabled(s, step) && OfferInv(s)
    ensures OfferInv(Apply(s, step))
  {
    hide Inv, NextStream, Panics, CanAdvance;
    assert Named(s) by { NamedOf(s); }
    PhasesAfter(s, step);
  }

  lemma NamedOf(s: State)
    requires Inv(s)
    ensures Named(s) && RouteInv(s)
  {
  }

  lemma DeletesKept(s: State, step: Step, i: StreamId)
    requires Inv(s) && Enabled(s, step) && i < |Apply(s, step).streams|
    requires i < |s.streams| ==> DeleteInv(s, i)
    ensures DeleteInv(Apply(s, step), i)
  {
    hide Inv, LockInv, NextPhase, NextStream, Panics, CanAdvance;
    NamedOf(s);
    PhasesAfter(s, step);
    if i < |s.streams| {
      LockedAt(s, i);
      if step.Move? {
        DeletedByMove(s, step.t, i);
      } else {
        NotDeletedOtherwise(s, step, i);
      }
    }
  }

  lemma LockedAt(s: State, i: StreamId)
    requires Inv(s) && i < |s.streams|
    ensures LockInv(s, i)
  {
  }

  /** A move that deletes the route, or goes on after it. */
  lemma DeletedByMove(s: State, t: ThreadId, i: StreamId)
    requires RouteInv(s) && i < |s.streams| && LockInv(s, i) && Enabled(s, Move(t)) && DeleteInv(s, i)
    ensures DeleteInv(Apply(s, Move(t)), i)
  {
    hide Panics, CanAdvance;
    PhasesAfter(s, Move(t));
  }

  lemma NotDeletedOtherwise(s: State, step: Step, i: StreamId)
    requires RouteInv(s) && i < |s.streams| && LockInv(s, i) && Enabled(s, step) && !step.Move? && DeleteInv(s, i)
    ensures DeleteInv(Apply(s, step), i)
  {
    hide Panics, CanAdvance, NextPhase, NextStream;
    PhasesAfter(s, step);
  }

  lemma FinalsKept(s: State, step: Step, i: StreamId)
    requires Inv(s) && OfferInv(s) && Enabled(s, step) && i < |Apply(s, step).streams|
    requires i < |s.streams| ==> FinalInv(s, i)
    ensures FinalInv(Apply(s, step), i)
  {
    hide Inv, Panics, CanAdvance, FinalArrived, FinalTried;
    assert Named(s) by { NamedOf(s); }
    PhasesAfter(s, step);
    var s' := Apply(s, step);
    if i == |s.streams| {
      NothingYet(s'.streams[i]);
    } else {
      Finals(s, step, i);
      if step.Move? && WillClose(s.Phase(step.t), i) {
        Closes(s, step.t, i);
      }
      if exists t: ThreadId :: WillClose(s.Phase(t), i) {
        var t: ThreadId :| WillClose(s.Phase(t), i);
        assert s'.Phase(t) == s.Phase(t) ==> WillClose(s'.Phase(t), i);
      }
    }
  }

  lemma NothingYet(st: Stream)
    requires st.arrivals == [] && st.log == []
    ensures !FinalArrived(st) && !FinalTried(st)
  {
  }

  /** Where new arrivals and attempts come from. */
  lemma Finals(s: State, step: Step, i: StreamId)
    requires Named(s) && OfferInv(s) && Enabled(s, step) && i < |s.streams|
    ensures var st, st' := s.streams[i], Apply(s, step).streams[i];
            && (FinalArrived(st') ==> FinalArrived(st) || (step.Packet? && WillClose(Apply(s, step).Phase(READER), i)))
            && (FinalTried(st') ==> FinalTried(st) || (step.Move? && WillClose(s.Phase(step.t), i)))
            && (!st.once.Fresh? ==> !st'.once.Fresh?)
  {
  }

  /** A thread on its way to close stays so until the close body has begun. */
  lemma Closes(s: State, t: ThreadId, i: StreamId)
    requires Named(s) && Enabled(s, Move(t)) && i < |s.streams| && WillClose(s.Phase(t), i)
    ensures WillClose(Apply(s, Move(t)).Phase(t), i) || !Apply(s, Move(t)).streams[i].once.Fresh?
  {
  }

  lemma StepKeepsEnds(s: State, step: Step)
    requires EndInv(s) && Enabled(s, step)
    ensures EndInv(Apply(s, step))
  {
    hide Inv, OfferInv, DeleteInv, FinalInv, Apply, Enabled;
    NamedOf(s);
    StepKeepsInv(s, step);
    OffersKept(s, step);
    forall i: StreamId | i < |Apply(s, step).streams|
      ensures DeleteInv(Apply(s, step), i) && FinalInv(Apply(s, step), i)
    {
      DeletesKept(s, step, i);
      FinalsKept(s, step, i);
    }
  }

  lemma {:induction false} RunsKeepEnds(s: State, steps: seq<Step>, end: State)
    requires EndInv(s) && Runs(s, steps, end)
    ensures EndInv(end)
    decreases |steps|
  {
    hide Apply, Enabled, EndInv;
    if steps != [] {
      StepKeepsEnds(s, steps[0]);
      RunsKeepEnds(Apply(s, steps[0]), steps[1..], end);
    }
  }

  lemma EndsInitially()
    ensures EndInv(INITIAL)
  {
    InvInitially();
  }

  // ---- what every interleaving guarantees ------------------------------------------------------------

  /**
   Once a final chunk has arrived, or a watcher has tried to send its own, the stream is closed, or
   its close has begun, or the thread concerned is on its way there: an idle read loop has left no
   finished stream open. And no route leads to a closed stream.
   */
  lemma FinalChunkCloses(steps: seq<Step>, s: State, i: StreamId)
    requires Runs(INITIAL, steps, s) && i < |s.streams|
    ensures FinalArrived(s.streams[i]) && !WillClose(s.Phase(READER), i) ==> !s.streams[i].once.Fresh?
    ensures FinalTried(s.streams[i]) && (forall t: ThreadId :: !WillClose(s.Phase(t), i)) ==> !s.streams[i].once.Fresh?
    ensures s.streams[i].once.Done? ==> Unrouted(s, i)
  {
    EndsInitially();
    RunsKeepEnds(INITIAL, steps, s);
    assert DeleteInv(s, i) && FinalInv(s, i);
  }

  /** After the close nothing more arrives and nothing more is kept, whatever runs. */
  lemma ClosedIsFinal(steps: seq<Step>, s: State, i: StreamId, more: seq<Step>, end: State)
    requires Runs(INITIAL, steps, s) && i < |s.streams| && s.streams[i].once.Done? && Runs(s, more, end)
    ensures i < |end.streams| && end.streams[i].once.Done? && end.streams[i].arrivals == s.streams[i].arrivals
    ensures end.streams[i].taken + end.streams[i].buffer == s.streams[i].taken + s.streams[i].buffer
  {
    EndsInitially();
    RunsKeepEnds(INITIAL, steps, s);
    ClosedStays(s, i, more, end);
  }

  lemma ClosedStep(s: State, i: StreamId, step: Step)
    requires EndInv(s) && i < |s.streams| && s.streams[i].once.Done? && Enabled(s, step)
    ensures i < |Apply(s, step).streams|
    ensures var st, st' := s.streams[i], Apply(s, step).streams[i];
            st'.once.Done? && st'.arrivals == st.arrivals && st'.taken + st'.buffer == st.taken + st.buffer
  {
    hide Inv, DeleteInv, FinalInv, OfferInv, Panics, CanAdvance, NextPhase, NextStream;
    NamedOf(s);
    ClosedMeans(s, i);
    if step.Move? && s.Phase(step.t).s == i {
      ClosedMove(step.t, s.streams[i], s.Phase(step.t));
    } else if step.Consume? && step.i == i {
      var st := s.streams[i];
      assert st.buffer == [st.buffer[0]] + st.buffer[1..];
    }
  }

  lemma ClosedMove(t: ThreadId, st: Stream, p: Phase)
    requires st.once.Done? && st.doneCloses == 1 && !p.InOnce()
    ensures var st' := NextStream(t, st, p);
            st'.once.Done? && st'.arrivals == st.arrivals && st'.taken == st.taken && st'.buffer == st.buffer
  {
  }

  lemma ClosedMeans(s: State, i: StreamId)
    requires EndInv(s) && i < |s.streams| && s.streams[i].once.Done?
    ensures s.streams[i].doneCloses == 1 && Unrouted(s, i)
    ensures forall t: ThreadId :: s.Phase(t).InOnce() ==> s.Phase(t).s != i
  {
    hide FlowInv, FinalInv, OfferInv;
    assert DeleteInv(s, i) && CloseInv(s, s.streams[i]) && LockInv(s, i);
  }

  lemma {:induction false} ClosedStays(s: State, i: StreamId, steps: seq<Step>, end: State)
    requires EndInv(s) && i < |s.streams| && s.streams[i].once.Done? && Runs(s, steps, end)
    ensures i < |end.streams| && end.streams[i].once.Done? && end.streams[i].arrivals == s.streams[i].arrivals
    ensures end.streams[i].taken + end.streams[i].buffer == s.streams[i].taken + s.streams[i].buffer
    decreases |steps|
  {
    hide Enabled, EndInv, Apply;
    if steps != [] {
      ClosedStep(s, i, steps[0]);
      StepKeepsEnds(s, steps[0]);
      ClosedStays(Apply(s, steps[0]), i, steps[1..], end);
    }
  }

  // ---- until then it stays open ---------------------------------------------------------------------------

  /** A step that ends stream `i` from outside: a watcher waking up, or the request failing. */
  predicate Ends(step: Step, i: StreamId) { (step.Watch? || step.SendFailed?) && step.i == i }

  /** Open, routed, and nobody on the way to close it. */
  ghost predicate Calm(s: State, i: StreamId)
    requires i < |s.streams|
  {
    var st := s.streams[i];
    && st.once.Fresh? && st.doneCloses == 0 && st.outCloses == 0
    && st.requestId in s.routes && s.routes[st.requestId] == i
    && forall t: ThreadId :: !WillClose(s.Phase(t), i) && !(s.Phase(t).InOnce() && s.Phase(t).s == i)
  }

  ghost predicate Alone(s: State, i: StreamId)
    requires i < |s.streams|
  {
    forall j: StreamId :: j < |s.streams| && j != i ==> s.streams[j].requestId != s.streams[i].requestId
  }

  /** A step of stream `i` that leaves it open, and a step elsewhere. */
  lemma CalmStep(s: State, i: StreamId, step: Step)
    requires Inv(s) && i < |s.streams| && Calm(s, i) && Enabled(s, step) && !Ends(step, i)
    requires i < |Apply(s, step).streams| && !FinalArrived(Apply(s, step).streams[i]) && Alone(Apply(s, step), i)
    ensures Calm(Apply(s, step), i)
  {
    hide Inv, Panics, CanAdvance, FinalArrived, Alone;
    NamedOf(s);
    PhasesAfter(s, step);
    var s' := Apply(s, step);
    if step.Move? {
      CalmMove(s, i, step.t);
    } else if step.Packet? && s' != s {
      if s.routes[step.chunk.requestId] == i {
        LastArrived(s'.streams[i], step.chunk);
      }
    } else if step.Open? {
      assert Alone(s', i) && step.requestId != s.streams[i].requestId by { NewIsOther(s', i); }
    }
  }

  lemma NewIsOther(s: State, i: StreamId)
    requires i < |s.streams| && Alone(s, i) && i != |s.streams| - 1
    ensures s.streams[|s.streams| - 1].requestId != s.streams[i].requestId
  {
  }

  lemma LastArrived(st: Stream, c: Chunk)
    requires st.arrivals != [] && st.arrivals[|st.arrivals| - 1] == c && !FinalArrived(st)
    ensures !c.isFinal
  {
  }

  lemma CalmMove(s: State, i: StreamId, t: ThreadId)
    requires RouteInv(s) && i < |s.streams| && Calm(s, i) && Enabled(s, Move(t)) && Alone(Apply(s, Move(t)), i)
    ensures Calm(Apply(s, Move(t)), i)
  {
    hide Panics, CanAdvance;
    PhasesAfter(s, Move(t));
    var j, s' := s.Phase(t).s, Apply(s, Move(t));
    if j == i {
      CalmNext(t, s.streams[i], s.Phase(t), i);
    } else {
      assert s'.streams[j].requestId != s'.streams[i].requestId;
      SameId(t, s.streams[j], s.Phase(t));
    }
  }

  lemma SameId(t: ThreadId, st: Stream, p: Phase)
    ensures NextStream(t, st, p).requestId == st.requestId
  {
  }

  lemma CalmNext(t: ThreadId, st: Stream, p: Phase, i: StreamId)
    requires !p.Idle? && p.s == i && !WillClose(p, i) && !p.InOnce()
    requires st.once.Fresh? && st.doneCloses == 0 && st.outCloses == 0
    ensures var st', p' := NextStream(t, st, p), NextPhase(st, p);
            && st'.once.Fresh? && st'.doneCloses == 0 && st'.outCloses == 0 && st'.requestId == st.requestId
            && !WillClose(p', i) && !p'.InOnce() && !p.Deleting?
  {
  }

  lemma Growing(s: State, i: StreamId, step: Step)
    requires Named(s) && Enabled(s, step) && i < |s.streams|
    ensures i < |Apply(s, step).streams| && |s.streams| <= |Apply(s, step).streams|
    ensures Apply(s, step).streams[i].requestId == s.streams[i].requestId
    ensures s.streams[i].arrivals <= Apply(s, step).streams[i].arrivals
  {
  }

  lemma {:induction false} GrowingRuns(s: State, i: StreamId, steps: seq<Step>, end: State)
    requires i < |s.streams| && Runs(s, steps, end)
    ensures i < |end.streams| && |s.streams| <= |end.streams|
    ensures end.streams[i].requestId == s.streams[i].requestId && s.streams[i].arrivals <= end.streams[i].arrivals
    decreases |steps|
  {
    hide Apply, Enabled;
    if steps != [] {
      Growing(s, i, steps[0]);
      GrowingRuns(Apply(s, steps[0]), i, steps[1..], end);
    }
  }

  lemma FinalStays(st: Stream, st': Stream)
    requires st.arrivals <= st'.arrivals
    ensures FinalArrived(st) ==> FinalArrived(st')
  {
    if FinalArrived(st) {
      var c :| c in st.arrivals && c.isFinal;
      assert c in st'.arrivals;
    }
  }

  /** What holds of the arrivals and request ids at the end held all along. */
  lemma Backwards(s: State, i: StreamId, steps: seq<Step>, end: State)
    requires i < |s.streams| && Runs(s, steps, end)
    requires i < |end.streams| && !FinalArrived(end.streams[i]) && Alone(end, i)
    ensures !FinalArrived(s.streams[i]) && Alone(s, i)
  {
    hide Runs;
    GrowingRuns(s, i, steps, end);
    FinalStays(s.streams[i], end.streams[i]);
    forall j: StreamId | j < |s.streams| && j != i
      ensures s.streams[j].requestId != s.streams[i].requestId
    {
      GrowingRuns(s, j, steps, end);
    }
  }

  lemma {:induction false} CalmRuns(s: State, i: StreamId, steps: seq<Step>, end: State)
    requires Inv(s) && i < |s.streams| && Calm(s, i) && Runs(s, steps, end)
    requires forall k :: 0 <= k < |steps| ==> !Ends(steps[k], i)
    requires i < |end.streams| && !FinalArrived(end.streams[i]) && Alone(end, i)
    ensures Calm(end, i)
    decreases |steps|
  {
    hide Apply, Enabled, Inv, Calm, Alone, FinalArrived, Named;
    if steps != [] {
      var next := Apply(s, steps[0]);
      Growing(s, i, steps[0]);
      Backwards(next, i, steps[1..], end);
      StepKeepsInv(s, steps[0]);
      CalmStep(s, i, steps[0]);
      CalmRuns(next, i, steps[1..], end);
    }
  }

  /**
   A stream just opened stays open and routed for as long as no final chunk has arrived, its watcher
   sleeps, its request has not failed, and no other stream has its request id.
   */
  lemma OpenUntilEnded(steps: seq<Step>, s: State, r: RequestId, more: seq<Step>, end: State)
    requires Runs(INITIAL, steps, s) && Runs(s, [Open(r)] + more, end)
    requires forall k :: 0 <= k < |more| ==> !Ends(more[k], |s.streams|)
    requires |s.streams| < |end.streams| && !FinalArrived(end.streams[|s.streams|]) && Alone(end, |s.streams|)
    ensures Calm(end, |s.streams|)
  {
    hide Calm, Alone, FinalArrived;
    InvInitially();
    RunsKeepInv(INITIAL, steps, s);
    assert ([Open(r)] + more)[1..] == more;
    NamedOf(s);
    StepKeepsInv(s, Open(r));
    JustOpened(s, r);
    CalmRuns(Apply(s, Open(r)), |s.streams|, more, end);
  }

  lemma JustOpened(s: State, r: RequestId)
    requires Inv(s)
    ensures Enabled(s, Open(r)) && |Apply(s, Open(r)).streams| == |s.streams| + 1
    ensures Calm(Apply(s, Open(r)), |s.streams|)
  {
    NamedOf(s);
    PhasesAfter(s, Open(r));
  }
}
