/**
 Streaming answers. The read loop routes each chunk to the stream registered under its request
 id; a watcher per request, and the failure path of the request itself, may end the stream at
 any moment. A stream has two channels: `done`, and the buffered output the consumer reads.
 Sending to a closed channel and closing one twice both panic in Go: here they set `panicked`.
 */
module Streams {
  type RequestId = seq<nat>
  type ThreadId = nat
  type StreamId = nat

  const CAPACITY := 16
  /** The transport's read loop is one goroutine. */
  const READER: ThreadId := 0

  datatype Chunk = Chunk(requestId: RequestId, isFinal: bool, body: nat)

  /** One attempt to send, with what the sender found when it held the lock. */
  datatype Attempt = Attempt(chunk: Chunk, byReader: bool, buffered: nat, closed: bool) {
    predicate Kept() { !closed && buffered < CAPACITY }
  }

  datatype Lock = Free | HeldBy(owner: ThreadId)
  datatype Once = Fresh | Running(t: ThreadId) | Done

  datatype Stream = Stream(
    requestId: RequestId,
    buffer: seq<Chunk>, taken: seq<Chunk>,   // in the channel; received by the consumer
    doneCloses: nat, outCloses: nat,         // how often each channel was closed
    sendMu: Lock, once: Once,
    arrivals: seq<Chunk>,                    // chunks the read loop routed here, in order
    log: seq<Attempt>)

  datatype Phase =
    | Idle
    | Sending(s: StreamId, chunk: Chunk, thenClose: bool)   // waits for sendMu
    | Locked(s: StreamId, chunk: Chunk, thenClose: bool)    // holds it, about to look at done
    | Checked(s: StreamId, chunk: Chunk, thenClose: bool)   // holds it, has found done open
    | Sent(s: StreamId, thenClose: bool)                    // holds it, attempt made
    | Closing(s: StreamId)                                  // at closeOnce
    | Deleting(s: StreamId)                                 // runs the close body
    | CloseWaiting(s: StreamId)
    | CloseLocked(s: StreamId)                              // holds sendMu
    | DoneClosed(s: StreamId)                               // holds it, done is closed
    | OutClosed(s: StreamId)                                // holds it, both are closed
  {
    predicate HoldsLock() { Locked? || Checked? || Sent? || CloseLocked? || DoneClosed? || OutClosed? }
    predicate InOnce() { Deleting? || CloseWaiting? || CloseLocked? || DoneClosed? || OutClosed? }
    predicate Offering() { Sending? || Locked? || Checked? }
  }

  datatype State = State(routes: map<RequestId, StreamId>, streams: seq<Stream>, phases: map<ThreadId, Phase>,
      panicked: bool)
  {
    function Phase(t: ThreadId): Phase { if t in phases then phases[t] else Idle }

    /** Thread `t` moves to phase `p` and leaves stream `i` as `st`. */
    function Moved(t: ThreadId, i: StreamId, st: Stream, p: Phase): State
      requires i < |streams|
    {
      this.(streams := streams[i := st], phases := phases[t := p])
    }
  }

  const INITIAL := State(map[], [], map[], false)

  datatype Step =
    | Open(requestId: RequestId)                             // RunQuery registers a stream
    | Packet(chunk: Chunk)                                   // the read loop looks a chunk up
    | Watch(t: ThreadId, i: StreamId, body: nat)             // the watcher wakes up
    | SendFailed(t: ThreadId, i: StreamId)                   // the request could not be written
    | Move(t: ThreadId)                                      // a send or close under way goes one step on
    | Consume(i: StreamId)

  /** What the next step of a send or a close has to wait for. */
  predicate CanAdvance(st: Stream, p: Phase) {
    match p
    case Idle => false
    case Sending(_, _, _) => st.sendMu.Free?
    case CloseWaiting(_) => st.sendMu.Free?
    case Closing(_) => !st.once.Running?
    case _ => true
  }

  /** Where send comes to its result: in the first select if it finds done closed, else in the second. */
  predicate Attempts(st: Stream, p: Phase) { p.Checked? || (p.Locked? && st.doneCloses > 0) }

  /** The result: the chunk is buffered if the stream is open and has room, and dropped otherwise. */
  function Attempted(st: Stream, chunk: Chunk, byReader: bool): Stream {
    var a := Attempt(chunk, byReader, |st.buffer|, st.doneCloses > 0);
    st.(buffer := if a.Kept() then st.buffer + [chunk] else st.buffer, log := st.log + [a])
  }

  function NextStream(t: ThreadId, st: Stream, p: Phase): Stream {
    match p
    case Sending(_, _, _) => st.(sendMu := HeldBy(t))
    case Locked(_, chunk, _) => if Attempts(st, p) then Attempted(st, chunk, t == READER) else st
    case Checked(_, chunk, _) => Attempted(st, chunk, t == READER)
    case Sent(_, _) => st.(sendMu := Free)
    case Closing(_) => if st.once.Fresh? then st.(once := Running(t)) else st
    case CloseWaiting(_) => st.(sendMu := HeldBy(t))
    case CloseLocked(_) => st.(doneCloses := st.doneCloses + 1)
    case DoneClosed(_) => st.(outCloses := st.outCloses + 1)
    case OutClosed(_) => st.(sendMu := Free, once := Done)
    case _ => st
  }

  function NextPhase(st: Stream, p: Phase): Phase {
    match p
    case Idle => Idle
    case Sending(i, chunk, thenClose) => Locked(i, chunk, thenClose)
    case Locked(i, chunk, thenClose) => if Attempts(st, p) then Sent(i, thenClose) else Checked(i, chunk, thenClose)
    case Checked(i, _, thenClose) => Sent(i, thenClose)
    case Sent(i, thenClose) => if thenClose then Closing(i) else Idle
    case Closing(i) => if st.once.Fresh? then Deleting(i) else Idle
    case Deleting(i) => CloseWaiting(i)
    case CloseWaiting(i) => CloseLocked(i)
    case CloseLocked(i) => DoneClosed(i)
    case DoneClosed(i) => OutClosed(i)
    case OutClosed(_) => Idle
  }

  /** The second select finding its channel closed, or a second close of either channel. */
  predicate Panics(st: Stream, p: Phase) {
    match p
    case Checked(_, _, _) => st.outCloses > 0
    case CloseLocked(_) => st.doneCloses > 0
    case DoneClosed(_) => st.outCloses > 0
    case _ => false
  }

  /** Phases and routes name existing streams. */
  ghost predicate Named(s: State) {
    && (forall r :: r in s.routes ==> s.routes[r] < |s.streams|)
    && (forall t: ThreadId :: !s.Phase(t).Idle? ==> s.Phase(t).s < |s.streams|)
  }

  ghost predicate Enabled(s: State, step: Step)
    requires Named(s)
  {
    match step
    case Open(_) => true
    case Packet(_) => s.Phase(READER).Idle?
    case Watch(t, i, _) => t != READER && s.Phase(t).Idle? && i < |s.streams|
    case SendFailed(t, i) => t != READER && s.Phase(t).Idle? && i < |s.streams|
    case Move(t) => !s.Phase(t).Idle? && CanAdvance(s.streams[s.Phase(t).s], s.Phase(t))
    case Consume(i) => i < |s.streams| && s.streams[i].buffer != []
  }

  ghost function Apply(s: State, step: Step): State
    requires Named(s) && Enabled(s, step)
  {
    match step
    case Open(r) =>
      s.(streams := s.streams + [Stream(r, [], [], 0, 0, Free, Fresh, [], [])], routes := s.routes[r := |s.streams|])
    case Packet(c) =>
      if c.requestId !in s.routes then s
      else
        var i := s.routes[c.requestId];
        s.Moved(READER, i, s.streams[i].(arrivals := s.streams[i].arrivals + [c]), Sending(i, c, c.isFinal))
    case Watch(t, i, body) =>
      s.Moved(t, i, s.streams[i], Sending(i, Chunk(s.streams[i].requestId, true, body), true))
    case SendFailed(t, i) => s.Moved(t, i, s.streams[i], Closing(i))
    case Move(t) =>
      var p := s.Phase(t);
      var st := s.streams[p.s];
      s.Moved(t, p.s, NextStream(t, st, p), NextPhase(st, p))
        .(routes := if p.Deleting? then s.routes - {st.requestId} else s.routes,
          panicked := s.panicked || Panics(st, p))
    case Consume(i) =>
      var st := s.streams[i];
      s.(streams := s.streams[i := st.(buffer := st.buffer[1..], taken := st.taken + [st.buffer[0]])])
  }

  ghost predicate Runs(s: State, steps: seq<Step>, end: State)
    decreases |steps|
  {
    if steps == [] then end == s
    else Named(s) && Enabled(s, steps[0]) && Runs(Apply(s, steps[0]), steps[1..], end)
  }

  // ---- invariant: locks and closing --------------------------------------------------------

  /** The phase of the thread running the close body, or Idle. */
  function Closer(s: State, st: Stream): Phase { if st.once.Running? then s.Phase(st.once.t) else Idle }

  ghost predicate LockInv(s: State, i: StreamId)
    requires i < |s.streams|
  {
    var st := s.streams[i];
    && (forall t: ThreadId :: s.Phase(t).HoldsLock() && s.Phase(t).s == i ==> st.sendMu == HeldBy(t))
    && (st.sendMu.HeldBy? ==> s.Phase(st.sendMu.owner).HoldsLock() && s.Phase(st.sendMu.owner).s == i)
    && (forall t: ThreadId :: s.Phase(t).InOnce() && s.Phase(t).s == i ==> st.once == Running(t))
    && (st.once.Running? ==> s.Phase(st.once.t).InOnce() && s.Phase(st.once.t).s == i)
  }

  /** Each channel is closed at most once, and exactly where the close body has got to. */
  ghost predicate CloseInv(s: State, st: Stream) {
    var c := Closer(s, st);
    && st.doneCloses == (if st.once.Done? || c.DoneClosed? || c.OutClosed? then 1 else 0)
    && st.outCloses == (if st.once.Done? || c.OutClosed? then 1 else 0)
  }

  // ---- invariant: what the consumer sees -----------------------------------------------------

  function Kept(log: seq<Attempt>): seq<Chunk> {
    if log == [] then []
    else Kept(log[..|log| - 1]) + (if log[|log| - 1].Kept() then [log[|log| - 1].chunk] else [])
  }

  function FromReader(log: seq<Attempt>): seq<Chunk> {
    if log == [] then []
    else FromReader(log[..|log| - 1]) + (if log[|log| - 1].byReader then [log[|log| - 1].chunk] else [])
  }

  /** A chunk the read loop has routed to stream `i` but not yet tried to send. */
  function InTransit(s: State, i: StreamId): seq<Chunk> {
    var p := s.Phase(READER);
    if p.Offering() && p.s == i then [p.chunk] else []
  }

  ghost predicate FlowInv(s: State, i: StreamId)
    requires i < |s.streams|
  {
    var st := s.streams[i];
    && |st.buffer| <= CAPACITY
    && st.taken + st.buffer == Kept(st.log)
    && FromReader(st.log) + InTransit(s, i) == st.arrivals
    && (forall k :: 0 <= k < |st.log| ==> st.log[k].chunk.requestId == st.requestId)
  }

  /** Chunks in flight and routes carry the stream's own request id. */
  ghost predicate RouteInv(s: State) {
    && Named(s)
    && (forall r :: r in s.routes ==> s.streams[s.routes[r]].requestId == r)
    && (forall t: ThreadId :: s.Phase(t).Offering() ==> s.Phase(t).chunk.requestId == s.streams[s.Phase(t).s].requestId)
  }

  /** What a sender saw still holds when it sends: this is what the lock is for. */
  ghost predicate CheckInv(s: State) {
    && Named(s)
    && forall t: ThreadId :: s.Phase(t).Checked? ==> s.streams[s.Phase(t).s].doneCloses == 0
  }

  ghost predicate Inv(s: State) {
    && RouteInv(s)
    && CheckInv(s)
    && !s.panicked
    && forall i: StreamId :: i < |s.streams| ==> LockInv(s, i) && CloseInv(s, s.streams[i]) && FlowInv(s, i)
  }

  lemma InvInitially()
    ensures Inv(INITIAL)
  {
  }

  // ---- moving one thread on one stream ----------------------------------------------------------

  /** The lock changes hands with the phases that hold it. */
  predicate LockMove(t: ThreadId, st: Stream, p: Phase, st': Stream, p': Phase) {
    || (st'.sendMu == st.sendMu && p'.HoldsLock() == p.HoldsLock())
    || (st.sendMu.Free? && st'.sendMu == HeldBy(t) && !p.HoldsLock() && p'.HoldsLock())
    || (p.HoldsLock() && st'.sendMu.Free? && !p'.HoldsLock())
  }

  predicate OnceMove(t: ThreadId, st: Stream, p: Phase, st': Stream, p': Phase) {
    || (st'.once == st.once && p'.InOnce() == p.InOnce())
    || (st.once.Fresh? && st'.once == Running(t) && !p.InOnce() && p'.Deleting?)
    || (p.OutClosed? && st'.once.Done? && !p'.InOnce())
  }

  /** The close counts move with the phases of the close body. */
  predicate CountMove(st: Stream, p: Phase, st': Stream, p': Phase) {
    && (st'.doneCloses == st.doneCloses + if p.CloseLocked? then 1 else 0)
    && (st'.outCloses == st.outCloses + if p.DoneClosed? then 1 else 0)
    && (p.CloseLocked? ==> p'.DoneClosed?) && (p.DoneClosed? ==> p'.OutClosed?) && (p.OutClosed? ==> st'.once.Done?)
    && (p'.DoneClosed? ==> p.CloseLocked?) && (p'.OutClosed? ==> p.DoneClosed?)
  }

  ghost predicate Move?(s: State, t: ThreadId, i: StreamId, st': Stream, p': Phase) {
    && i < |s.streams|
    && (s.Phase(t).Idle? || s.Phase(t).s == i) && (p'.Idle? || p'.s == i)
    && st'.requestId == s.streams[i].requestId
    && LockMove(t, s.streams[i], s.Phase(t), st', p')
    && OnceMove(t, s.streams[i], s.Phase(t), st', p')
    && CountMove(s.streams[i], s.Phase(t), st', p')
  }

  lemma OthersStay(s: State, t: ThreadId, i: StreamId, st': Stream, p': Phase)
    requires i < |s.streams|
    ensures var s' := s.Moved(t, i, st', p');
            s'.Phase(t) == p' && forall u: ThreadId :: u != t ==> s'.Phase(u) == s.Phase(u)
  {
  }

  lemma LocksMove(s: State, t: ThreadId, i: StreamId, st': Stream, p': Phase, j: StreamId)
    requires Move?(s, t, i, st', p') && j < |s.streams| && LockInv(s, j)
    ensures LockInv(s.Moved(t, i, st', p'), j)
  {
    OthersStay(s, t, i, st', p');
  }

  lemma ClosesMove(s: State, t: ThreadId, i: StreamId, st': Stream, p': Phase, j: StreamId)
    requires Move?(s, t, i, st', p') && j < |s.streams| && LockInv(s, j) && CloseInv(s, s.streams[j])
    ensures var s' := s.Moved(t, i, st', p'); CloseInv(s', s'.streams[j])
  {
    OthersStay(s, t, i, st', p');
  }

  lemma AdvanceIsMove(s: State, t: ThreadId)
    requires Named(s) && Enabled(s, Move(t))
    ensures var p := s.Phase(t);
            var st := s.streams[p.s];
            Move?(s, t, p.s, NextStream(t, st, p), NextPhase(st, p))
  {
  }

  // ---- every step keeps the invariant ------------------------------------------------------------

  /** The step as one move, for the steps that are one. */
  ghost predicate Matches(s: State, step: Step, t: ThreadId, i: StreamId, st': Stream, p': Phase)
    requires Named(s) && Enabled(s, step)
  {
    && Move?(s, t, i, st', p')
    && Apply(s, step).streams == s.streams[i := st'] && Apply(s, step).phases == s.phases[t := p']
  }

  lemma AsMove(s: State, step: Step) returns (t: ThreadId, i: StreamId, st': Stream, p': Phase)
    requires RouteInv(s) && Enabled(s, step) && !step.Open? && !step.Consume? && Apply(s, step) != s
    ensures Matches(s, step, t, i, st', p')
    ensures p'.Offering() ==> p'.chunk.requestId == s.streams[i].requestId
  {
    match step
    case Packet(c) =>
      t, i := READER, s.routes[c.requestId];
      st', p' := s.streams[i].(arrivals := s.streams[i].arrivals + [c]), Sending(i, c, c.isFinal);
    case Watch(u, k, body) =>
      t, i := u, k;
      st', p' := s.streams[i], Sending(i, Chunk(s.streams[i].requestId, true, body), true);
    case SendFailed(u, k) =>
      t, i := u, k;
      st', p' := s.streams[i], Closing(i);
    case Move(u) =>
      t, i := u, s.Phase(u).s;
      AdvanceIsMove(s, u);
      st', p' := NextStream(u, s.streams[i], s.Phase(u)), NextPhase(s.streams[i], s.Phase(u));
  }

  lemma LocksKept(s: State, step: Step, j: StreamId)
    requires Inv(s) && Enabled(s, step) && j < |Apply(s, step).streams|
    ensures LockInv(Apply(s, step), j) && CloseInv(Apply(s, step), Apply(s, step).streams[j])
  {
    hide FlowInv, LockMove, OnceMove, CountMove;
    var s' := Apply(s, step);
    if step.Open? || step.Consume? {
      assert s'.phases == s.phases && forall u: ThreadId :: s'.Phase(u) == s.Phase(u);
      if j < |s.streams| {
        assert LockInv(s, j) && CloseInv(s, s.streams[j]);
      }
    } else if s' != s {
      var t, i, st', p' := AsMove(s, step);
      hide Apply, Enabled;
      assert LockInv(s, j) && CloseInv(s, s.streams[j]);
      LocksMove(s, t, i, st', p', j);
      ClosesMove(s, t, i, st', p', j);
      SameThreads(s.Moved(t, i, st', p'), s', j);
    }
  }

  lemma SameThreads(s: State, s': State, j: StreamId)
    requires s'.streams == s.streams && s'.phases == s.phases && j < |s.streams|
    ensures LockInv(s', j) == LockInv(s, j) && CloseInv(s', s'.streams[j]) == CloseInv(s, s.streams[j])
  {
    assert forall u: ThreadId :: s'.Phase(u) == s.Phase(u);
  }

  lemma RoutesMove(s: State, t: ThreadId, i: StreamId, st': Stream, p': Phase, s': State)
    requires RouteInv(s) && Move?(s, t, i, st', p')
    requires p'.Offering() ==> p'.chunk.requestId == s.streams[i].requestId
    requires s'.streams == s.streams[i := st'] && s'.phases == s.phases[t := p']
    requires s'.routes.Keys <= s.routes.Keys && forall r :: r in s'.routes ==> s'.routes[r] == s.routes[r]
    ensures RouteInv(s')
  {
    hide LockMove, OnceMove, CountMove;
    forall u: ThreadId
      ensures s'.Phase(u) == if u == t then p' else s.Phase(u)
    {
    }
  }

  lemma RoutesKept(s: State, step: Step)
    requires RouteInv(s) && Enabled(s, step)
    ensures RouteInv(Apply(s, step))
  {
    hide Move?, NextStream, NextPhase, Panics, CanAdvance;
    var s' := Apply(s, step);
    if step.Open? || step.Consume? {
      assert s'.phases == s.phases && forall u: ThreadId :: s'.Phase(u) == s.Phase(u);
    } else if s' != s {
      var t, i, st', p' := AsMove(s, step);
      RoutesMove(s, t, i, st', p', s');
    }
  }

  /** Nobody closes a stream while another thread is between its two selects. */
  lemma ChecksKept(s: State, step: Step)
    requires Inv(s) && Enabled(s, step)
    ensures CheckInv(Apply(s, step))
  {
    RoutesKept(s, step);
    hide FlowInv, Panics, CanAdvance, LockInv;
    var s' := Apply(s, step);
    forall t: ThreadId | s'.Phase(t).Checked?
      ensures s'.streams[s'.Phase(t).s].doneCloses == 0
    {
      if step.Move? && step.t != t && s.Phase(step.t).CloseLocked? {
        assert s'.Phase(t) == s.Phase(t);
        assert LockInv(s, s.Phase(t).s);
        LockExcludes(s, t, step.t, s.Phase(t).s);
      } else {
        assert (step.Move? && step.t == t) || s'.Phase(t) == s.Phase(t);
      }
    }
  }

  lemma LockExcludes(s: State, t: ThreadId, u: ThreadId, i: StreamId)
    requires i < |s.streams| && LockInv(s, i) && t != u && s.Phase(t).HoldsLock() && s.Phase(t).s == i
    ensures !(s.Phase(u).HoldsLock() && s.Phase(u).s == i)
  {
  }

  lemma NoPanic(s: State, step: Step)
    requires Inv(s) && Enabled(s, step)
    ensures !Apply(s, step).panicked
  {
    hide FlowInv;
    if step.Move? {
      var i := s.Phase(step.t).s;
      assert LockInv(s, i) && CloseInv(s, s.streams[i]);
    }
  }

  // ---- what flows -------------------------------------------------------------------------------

  predicate SameFlow(st: Stream, st': Stream) {
    && st'.requestId == st.requestId && st'.buffer == st.buffer && st'.taken == st.taken
    && st'.arrivals == st.arrivals && st'.log == st.log
  }

  lemma FlowKept(s: State, step: Step, j: StreamId)
    requires Inv(s) && Enabled(s, step) && j < |Apply(s, step).streams|
    ensures FlowInv(Apply(s, step), j)
  {
    hide LockInv, CloseInv, Kept, FromReader, NextStream, NextPhase, Panics, CanAdvance;
    var s' := Apply(s, step);
    if j < |s.streams| {
      assert FlowInv(s, j);
    } else {
      EmptyLog();
      assert InTransit(s', j) == [];
    }
    if step.Move? && s.Phase(step.t).s == j && Attempts(s.streams[j], s.Phase(step.t)) {
      FlowOfAttempt(s, step.t);
    } else if step.Consume? && step.i == j {
      var st, st' := s.streams[j], s'.streams[j];
      assert st'.taken + st'.buffer == st.taken + st.buffer;
    } else if step.Packet? && s' != s && s.routes[step.chunk.requestId] == j {
      assert InTransit(s, j) == [] && InTransit(s', j) == [step.chunk];
      var done := FromReader(s.streams[j].log);
      assert done + [] == done;
    } else if j < |s.streams| {
      QuietStep(s, step, j);
    }
  }

  lemma QuietStep(s: State, step: Step, j: StreamId)
    requires Named(s) && Enabled(s, step) && j < |s.streams|
    requires !(step.Move? && s.Phase(step.t).s == j && Attempts(s.streams[j], s.Phase(step.t)))
    requires !(step.Consume? && step.i == j)
    requires !(step.Packet? && Apply(s, step) != s && s.routes[step.chunk.requestId] == j)
    ensures InTransit(Apply(s, step), j) == InTransit(s, j)
    ensures SameFlow(s.streams[j], Apply(s, step).streams[j])
  {
  }

  lemma EmptyLog()
    ensures Kept([]) == [] && FromReader([]) == []
  {
  }

  lemma FlowOfAttempt(s: State, t: ThreadId)
    requires RouteInv(s) && !s.Phase(t).Idle? && Attempts(s.streams[s.Phase(t).s], s.Phase(t))
    requires FlowInv(s, s.Phase(t).s)
    ensures FlowInv(Apply(s, Move(t)), s.Phase(t).s)
  {
    var s' := Apply(s, Move(t));
    var i := s.Phase(t).s;
    var st, st' := s.streams[i], s'.streams[i];
    var a := st'.log[|st.log|];
    assert st'.log[..|st.log|] == st.log;
    assert st'.taken + st'.buffer == Kept(st.log) + (if a.Kept() then [a.chunk] else []);
    assert FromReader(st.log) + [] == FromReader(st.log);
    assert st.arrivals + [] == st.arrivals;
    assert InTransit(s', i) == if t == READER then [] else InTransit(s, i);
  }

  lemma StepKeepsInv(s: State, step: Step)
    requires Inv(s) && Enabled(s, step)
    ensures Inv(Apply(s, step))
  {
    RoutesKept(s, step);
    ChecksKept(s, step);
    NoPanic(s, step);
    hide Apply, Enabled, LockInv, CloseInv, FlowInv, RouteInv, CheckInv;
    forall i: StreamId | i < |Apply(s, step).streams|
      ensures LockInv(Apply(s, step), i) && CloseInv(Apply(s, step), Apply(s, step).streams[i])
              && FlowInv(Apply(s, step), i)
    {
      LocksKept(s, step, i);
      FlowKept(s, step, i);
    }
  }

  lemma {:induction false} RunsKeepInv(s: State, steps: seq<Step>, end: State)
    requires Inv(s) && Runs(s, steps, end)
    ensures Inv(end)
    decreases |steps|
  {
    hide Apply, Enabled, Inv;
    if steps != [] {
      StepKeepsInv(s, steps[0]);
      RunsKeepInv(Apply(s, steps[0]), steps[1..], end);
    }
  }

  // ---- what every interleaving guarantees --------------------------------------------------------

  /**
   No interleaving panics: a thread about to send finds both channels open, a thread about to close
   one finds it open. Each channel is closed at most once, and at most 16 chunks wait.
   */
  lemma ClosingIsSafe(steps: seq<Step>, s: State, i: StreamId)
    requires Runs(INITIAL, steps, s) && i < |s.streams|
    ensures !s.panicked
    ensures forall t: ThreadId :: !s.Phase(t).Idle? && s.Phase(t).s == i ==>
              && (s.Phase(t).Checked? ==> s.streams[i].outCloses == 0 && s.streams[i].doneCloses == 0)
              && (s.Phase(t).CloseLocked? ==> s.streams[i].doneCloses == 0)
              && (s.Phase(t).DoneClosed? ==> s.streams[i].outCloses == 0)
    ensures s.streams[i].outCloses <= s.streams[i].doneCloses <= 1
    ensures |s.streams[i].buffer| <= 16
  {
    InvInitially();
    RunsKeepInv(INITIAL, steps, s);
    assert CloseInv(s, s.streams[i]) && FlowInv(s, i) && LockInv(s, i);
  }

  /** A send looks at done first: closed, it is over; open, it goes on to send. */
  lemma TwoSelects(t: ThreadId, st: Stream, i: StreamId, chunk: Chunk, thenClose: bool)
    ensures st.doneCloses > 0 ==> NextPhase(st, Locked(i, chunk, thenClose)) == Sent(i, thenClose)
    ensures st.doneCloses == 0 ==>
              && NextPhase(st, Locked(i, chunk, thenClose)) == Checked(i, chunk, thenClose)
              && NextStream(t, st, Locked(i, chunk, thenClose)) == st
  {
  }

  /**
   What the consumer has received and has waiting is, in order, exactly the attempts that found
   room in an open stream; all bear the stream's own request id; and the read loop's attempts
   are its arrivals, in order, but for one that may still be on its way.
   */
  lemma ConsumerSeesInOrder(steps: seq<Step>, s: State, i: StreamId)
    requires Runs(INITIAL, steps, s) && i < |s.streams|
    ensures var st := s.streams[i];
            && st.taken + st.buffer == Kept(st.log)
            && (forall k :: 0 <= k < |st.taken| ==> st.taken[k].requestId == st.requestId)
            && FromReader(st.log) <= st.arrivals
            && |st.arrivals| <= |FromReader(st.log)| + 1
  {
    InvInitially();
    RunsKeepInv(INITIAL, steps, s);
    assert FlowInv(s, i);
    var st := s.streams[i];
    KeptChunks(st.log, st.requestId);
    forall k | 0 <= k < |st.taken|
      ensures st.taken[k].requestId == st.requestId
    {
      assert (st.taken + st.buffer)[k] == st.taken[k];
    }
  }

  lemma {:induction false} KeptChunks(log: seq<Attempt>, r: RequestId)
    requires forall k :: 0 <= k < |log| ==> log[k].chunk.requestId == r
    ensures forall k :: 0 <= k < |Kept(log)| ==> Kept(log)[k].requestId == r
  {
    if log != [] {
      KeptChunks(log[..|log| - 1], r);
    }
  }

  /** A stream that is still open loses a chunk of the read loop only to a full buffer. */
  lemma LossNeedsFullBuffer(steps: seq<Step>, s: State, i: StreamId)
    requires Runs(INITIAL, steps, s) && i < |s.streams| && s.streams[i].doneCloses == 0
    ensures forall k :: 0 <= k < |s.streams[i].log| ==>
              var a := s.streams[i].log[k]; (!a.closed && a.buffered < 16) || a.buffered == 16
  {
    AttemptsBounded(INITIAL, steps, s, i);
  }

  ghost predicate AttemptsOk(st: Stream) {
    forall k :: 0 <= k < |st.log| ==> st.log[k].buffered <= CAPACITY && (st.doneCloses == 0 ==> !st.log[k].closed)
  }

  lemma AttemptsStayOk(s: State, step: Step, i: StreamId)
    requires Inv(s) && Enabled(s, step) && i < |Apply(s, step).streams|
    requires i < |s.streams| ==> AttemptsOk(s.streams[i])
    ensures AttemptsOk(Apply(s, step).streams[i])
  {
    hide LockInv, CloseInv, Kept, FromReader;
    if i < |s.streams| {
      assert FlowInv(s, i);
    }
  }

  lemma {:induction false} AttemptsBounded(s: State, steps: seq<Step>, end: State, i: StreamId)
    requires Inv(s) && Runs(s, steps, end) && i < |end.streams|
    requires i < |s.streams| ==> AttemptsOk(s.streams[i])
    ensures AttemptsOk(end.streams[i])
    decreases |steps|
  {
    hide Apply, Enabled, Inv, AttemptsOk, Named;
    if steps != [] {
      StepKeepsInv(s, steps[0]);
      if i < |Apply(s, steps[0]).streams| {
        AttemptsStayOk(s, steps[0], i);
      }
      AttemptsBounded(Apply(s, steps[0]), steps[1..], end, i);
    }
  }

  // ---- one stream as the source writes it ---------------------------------------------------------

  class StreamChannel {
    var buffer: seq<Chunk>
    var doneClosed: bool
    var outClosed: bool
    var closeOnce: bool

    /** Between operations the two channels are open or closed together. */
    ghost predicate Valid()
      reads this
    {
      |buffer| <= CAPACITY && doneClosed == outClosed == closeOnce
    }

    constructor ()
      ensures Valid() && buffer == [] && !doneClosed
    {
      buffer, doneClosed, outClosed, closeOnce := [], false, false, false;
    }

    /** Never blocks: the chunk is buffered if the stream is open and has room, and dropped otherwise. */
    method Send(chunk: Chunk) returns (ok: bool)
      requires Valid()
      modifies this`buffer
      ensures Valid()
      ensures ok <==> !doneClosed && |old(buffer)| < 16
      ensures buffer == if ok then old(buffer) + [chunk] else old(buffer)
    {
      if doneClosed {
        return false;
      }
      if |buffer| < CAPACITY {
        assert !outClosed;
        buffer := buffer + [chunk];
        return true;
      }
      return false;
    }

    /** Closes both channels the first time and does nothing afterwards; buffered chunks stay readable. */
    method Close()
      requires Valid()
      modifies this`doneClosed, this`outClosed, this`closeOnce
      ensures Valid() && doneClosed
    {
      if !closeOnce {
        closeOnce := true;
        assert !doneClosed && !outClosed;
        doneClosed := true;
        outClosed := true;
      }
    }
  }
}
