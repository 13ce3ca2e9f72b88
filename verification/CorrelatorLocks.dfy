/**
 The correlator with its mutex taken apart: locking, looking up, deleting and unlocking are steps of
 their own, and any other thread may move between them. Every run of this system is a run of the
 coarser one, in which a critical section is one step, so what holds there over all runs holds here.
 */
module CorrelatorLocks {
  import Q = QueryCorrelator

  type ThreadId = Q.ThreadId
  type Handle = Q.Handle

  datatype Op =
    | OpRegister(id: Q.QueryId, deadline: Q.Time)
    | OpDeliver(id: Q.QueryId, payload: Q.Payload)
    | OpFail(id: Q.QueryId, cause: Q.Cause)
    | OpFailAll(cause: Q.Cause)
    | OpSweep(now: Q.Time)
  {
    predicate Resolves() { OpDeliver? || OpFail? }
  }

  datatype Lock = Free | HeldBy(owner: ThreadId)

  /** How far a thread has got inside its critical section. */
  datatype Stage =
    | Entered(op: Op)
    | NotClosed(op: Op)                                   // register: closed was false
    | Unique(op: Op)                                      // register: the id was not there
    | Found(op: Op, h: Handle)                            // deliver, fail: the entry looked up
    | Copied(op: Op, taken: map<Q.QueryId, Handle>)       // failAll: the map kept aside
    | Emptied(op: Op, taken: map<Q.QueryId, Handle>)      // failAll: the new map in place
    | Sweeping                                            // gcExpired: in its loop
    | Leaving

  datatype State = State(core: Q.State, lock: Lock, stages: map<ThreadId, Stage>)

  const INITIAL := State(Q.INITIAL, Free, map[])

  datatype Step =
    | Enter(t: ThreadId, op: Op)     // lock
    | Act(t: ThreadId)               // one read or write under the lock
    | Leave(t: ThreadId)             // unlock
    | Core(step: Q.Step)             // sends, receives, and the rounds of the sweep

  /** Sends wait for the unlock, except in the sweep, which sends under the lock. */
  predicate Allowed(s: State, c: Q.Step) {
    match c
    case SendAnswer(t) => t !in s.stages
    case SendError(t, _) => t in s.stages ==> s.stages[t].Sweeping?
    case SweepTake(t, _) => t in s.stages && s.stages[t].Sweeping?
    case SweepEnd(t) => t in s.stages && s.stages[t].Sweeping?
    case ReceiveAnswer(_) => true
    case ReceiveError(_) => true
    case _ => false
  }

  ghost predicate Enabled(s: State, step: Step) {
    match step
    case Enter(t, _) => s.lock.Free? && t !in s.stages && t !in s.core.jobs
    case Act(t) => t in s.stages && !s.stages[t].Sweeping? && !s.stages[t].Leaving?
    case Leave(t) => t in s.stages && s.stages[t].Leaving?
    case Core(c) => Allowed(s, c) && Q.Closed(s.core) && Q.Enabled(s.core, c)
  }

  function At(s: State, t: ThreadId, stage: Stage): State { s.(stages := s.stages[t := stage]) }

  function JobOf(op: Op, h: Handle): Q.Job {
    if op.OpDeliver? then Q.Answering(h, op.payload)
    else Q.Failing({h}, if op.OpFail? then op.cause else Q.RequestTimeout, Q.FromFail)
  }

  /** The next read or write, by operation and stage. */
  function Acted(s: State, t: ThreadId): State
    requires t in s.stages
  {
    var core := s.core;
    match s.stages[t]
    case Entered(OpRegister(_, _)) => At(s, t, if core.closed then Leaving else NotClosed(s.stages[t].op))
    case NotClosed(OpRegister(id, d)) => At(s, t, if id in core.pending then Leaving else Unique(OpRegister(id, d)))
    case Unique(OpRegister(id, d)) =>
      At(s, t, Leaving).(core := core.(
        pending := core.pending[id := |core.queries|],
        queries := core.queries + [Q.Query(id, d, Q.EMPTY_ANSWER, Q.EMPTY_ERROR)]))
    case Entered(OpDeliver(id, _)) =>
      At(s, t, if id in core.pending then Found(s.stages[t].op, core.pending[id]) else Leaving)
    case Entered(OpFail(id, _)) =>
      At(s, t, if id in core.pending then Found(s.stages[t].op, core.pending[id]) else Leaving)
    case Found(op, h) =>
      if op.Resolves() then
        At(s, t, Leaving).(core := core.(pending := core.pending - {op.id}, jobs := core.jobs[t := JobOf(op, h)]))
      else s
    case Entered(OpFailAll(cause)) => At(s, t, Copied(OpFailAll(cause), core.pending))
    case Copied(op, taken) => At(s, t, Emptied(op, taken)).(core := core.(pending := map[]))
    case Emptied(OpFailAll(cause), taken) =>
      At(s, t, Leaving).(core := core.(
        closed := true,
        jobs := if taken.Keys == {} then core.jobs
            else core.jobs[t := Q.Failing(Q.Handles(taken), cause, Q.FromFailAll)]))
    case Entered(OpSweep(now)) =>
      if core.closed then At(s, t, Leaving) else At(s, t, Sweeping).(core := core.(mutex := Q.Sweeping(t, now)))
    case _ => s
  }

  ghost function Apply(s: State, step: Step): State
    requires Enabled(s, step)
  {
    match step
    case Enter(t, op) => At(s, t, Entered(op)).(lock := HeldBy(t))
    case Act(t) => Acted(s, t)
    case Leave(t) => s.(lock := Free, stages := s.stages - {t})
    case Core(c) =>
      var s' := s.(core := Q.Apply(s.core, c));
      if c.SweepEnd? then At(s', c.t, Leaving) else s'
  }

  ghost predicate Runs(s: State, steps: seq<Step>, end: State)
    decreases |steps|
  {
    if steps == [] then end == s else Enabled(s, steps[0]) && Runs(Apply(s, steps[0]), steps[1..], end)
  }

  // ---- the coarser view ----------------------------------------------------------------------------

  /** Until failAll is through, the map it put aside is still the one in force. */
  function View(s: State): Q.State {
    if s.lock.HeldBy? && s.lock.owner in s.stages && s.stages[s.lock.owner].Emptied?
    then s.core.(pending := s.stages[s.lock.owner].taken)
    else s.core
  }

  /** The one step of the coarser system in which a critical section takes effect. */
  function Coarse(s: State, step: Step): seq<Q.Step> {
    match step
    case Core(c) => [c]
    case Act(t) =>
      if t !in s.stages then []
      else (match s.stages[t]
            case Unique(OpRegister(id, d)) => [Q.Register(id, d)]
            case Found(OpDeliver(id, payload), _) => [Q.TakeForAnswer(t, id, payload)]
            case Found(OpFail(id, cause), _) => [Q.TakeForError(t, id, cause)]
            case Emptied(OpFailAll(cause), _) => [Q.TakeAll(t, cause)]
            case Entered(OpSweep(now)) => if s.core.closed then [] else [Q.SweepBegin(t, now)]
            case _ => [])
    case _ => []
  }

  // ---- the invariant --------------------------------------------------------------------------------

  /** Only the owner of the mutex is inside a critical section. */
  ghost predicate Exclusive(s: State) {
    && (forall t :: t in s.stages ==> s.lock == HeldBy(t))
    && (s.lock.HeldBy? ==> s.lock.owner in s.stages)
  }

  /** What a thread has read under the lock is still so. */
  predicate StillSo(core: Q.State, t: ThreadId, stage: Stage) {
    match stage
    case Entered(_) => t !in core.jobs && core.mutex.Free?
    case NotClosed(op) => op.OpRegister? && !core.closed && core.mutex.Free?
    case Unique(op) => op.OpRegister? && !core.closed && op.id !in core.pending && core.mutex.Free?
    case Found(op, h) =>
      && op.Resolves() && op.id in core.pending && core.pending[op.id] == h
      && t !in core.jobs && core.mutex.Free?
    case Copied(op, taken) => op.OpFailAll? && core.pending == taken && t !in core.jobs && core.mutex.Free?
    case Emptied(op, _) => op.OpFailAll? && core.pending == map[] && t !in core.jobs && core.mutex.Free?
    case Sweeping => core.mutex.Sweeping? && core.mutex.owner == t
    case Leaving => core.mutex.Free?
  }

  ghost predicate Inv(s: State) {
    && Exclusive(s)
    && Q.Inv(View(s))
    && (s.lock.Free? ==> s.core.mutex.Free?)
    && (forall t :: t in s.stages ==> StillSo(s.core, t, s.stages[t]))
  }

  lemma InvInitially()
    ensures Inv(INITIAL)
  {
    Q.InvInitially();
  }

  // ---- every step refines -----------------------------------------------------------------------------

  lemma OneStep(c: Q.State, step: Q.Step, c': Q.State)
    requires Q.Inv(c) && Q.Enabled(c, step) && Q.Apply(c, step) == c'
    ensures Q.Runs(c, [step], c') && Q.Inv(c')
  {
    Q.StepKeepsInv(c, step);
    assert [step][1..] == [] && Q.Runs(c', [], c');
  }

  lemma NoStep(c: Q.State)
    ensures Q.Runs(c, [], c)
  {
  }

  /** Inside the critical section. */
  lemma ActRefines(s: State, t: ThreadId)
    requires Inv(s) && Enabled(s, Act(t))
    ensures Inv(Apply(s, Act(t))) && Q.Runs(View(s), Coarse(s, Act(t)), View(Apply(s, Act(t))))
  {
    hide Q.Inv, Q.Runs;
    var s' := Apply(s, Act(t));
    NoStep(View(s));
    assert s.lock == HeldBy(t) && forall u :: u in s'.stages <==> u == t;
    match s.stages[t]
    case Unique(OpRegister(id, d)) => OneStep(View(s), Q.Register(id, d), View(s'));
    case Found(OpDeliver(id, payload), _) => OneStep(View(s), Q.TakeForAnswer(t, id, payload), View(s'));
    case Found(OpFail(id, cause), _) => OneStep(View(s), Q.TakeForError(t, id, cause), View(s'));
    case Emptied(OpFailAll(cause), _) => OneStep(View(s), Q.TakeAll(t, cause), View(s'));
    case Entered(OpSweep(now)) =>
      if !s.core.closed {
        OneStep(View(s), Q.SweepBegin(t, now), View(s'));
      }
    case _ =>
  }

  /** Sends and receives, which may come while another thread holds the mutex, and the sweep's rounds. */
  lemma CoreRefines(s: State, c: Q.Step)
    requires Inv(s) && Enabled(s, Core(c))
    ensures Inv(Apply(s, Core(c))) && Q.Runs(View(s), Coarse(s, Core(c)), View(Apply(s, Core(c))))
  {
    hide Q.Inv, Q.Runs;
    var s' := Apply(s, Core(c));
    SameEffect(s, c);
    OneStep(View(s), c, View(s'));
  }

  /** The map put aside makes no difference to them. */
  lemma SameEffect(s: State, c: Q.Step)
    requires Inv(s) && Enabled(s, Core(c))
    ensures Q.Closed(View(s)) && Q.Enabled(View(s), c)
    ensures var s' := Apply(s, Core(c));
            && Q.Apply(View(s), c) == View(s')
            && Exclusive(s')
            && (s'.lock.Free? ==> s'.core.mutex.Free?)
            && (forall t :: t in s'.stages ==> StillSo(s'.core, t, s'.stages[t]))
  {
  }

  lemma StepRefines(s: State, step: Step)
    requires Inv(s) && Enabled(s, step)
    ensures Inv(Apply(s, step)) && Q.Runs(View(s), Coarse(s, step), View(Apply(s, step)))
  {
    match step
    case Act(t) => ActRefines(s, t);
    case Core(c) => CoreRefines(s, c);
    case Enter(t, op) => NoStep(View(s)); assert View(Apply(s, step)) == View(s);
    case Leave(t) => NoStep(View(s)); assert View(Apply(s, step)) == View(s);
  }

  // ---- every run --------------------------------------------------------------------------------------

  /** The run of the coarser system that a run amounts to. */
  lemma {:induction false} RunsRefine(s: State, steps: seq<Step>, end: State) returns (coarse: seq<Q.Step>)
    requires Inv(s) && Runs(s, steps, end)
    ensures Inv(end) && Q.Runs(View(s), coarse, View(end))
    decreases |steps|
  {
    hide Inv, Enabled, Apply, View, Coarse, Q.Runs;
    if steps == [] {
      NoStep(View(s));
      coarse := [];
    } else {
      StepRefines(s, steps[0]);
      var rest := RunsRefine(Apply(s, steps[0]), steps[1..], end);
      coarse := Coarse(s, steps[0]) + rest;
      Q.RunsAppend(View(s), Coarse(s, steps[0]), View(Apply(s, steps[0])), rest, View(end));
    }
  }

  // ---- and back: a critical section run alone is the coarse step ------------------------------------------

  /** What an operation other than the sweep is in the coarser system. */
  function CoarseOp(t: ThreadId, op: Op): Q.Step
    requires !op.OpSweep?
  {
    match op
    case OpRegister(id, d) => Q.Register(id, d)
    case OpDeliver(id, payload) => Q.TakeForAnswer(t, id, payload)
    case OpFail(id, cause) => Q.TakeForError(t, id, cause)
    case OpFailAll(cause) => Q.TakeAll(t, cause)
  }

  /** The steps of one critical section: lock, as many acts as its branch takes, unlock. */
  function Section(s: State, t: ThreadId, op: Op): seq<Step> {
    var acts: nat :=
      match op
      case OpRegister(id, _) => if s.core.closed then 1 else if id in s.core.pending then 2 else 3
      case OpDeliver(id, _) => if id in s.core.pending then 2 else 1
      case OpFail(id, _) => if id in s.core.pending then 2 else 1
      case OpFailAll(_) => 3
      case OpSweep(_) => 1;
    [Enter(t, op)] + (seq(acts, i => Act(t)) + [Leave(t)])
  }

  lemma OneMore(s: State, step: Step, rest: seq<Step>, end: State)
    requires Enabled(s, step) && Runs(Apply(s, step), rest, end)
    ensures Runs(s, [step] + rest, end)
  {
    hide Enabled, Apply;
    assert ([step] + rest)[1..] == rest;
  }

  lemma Leaves(s: State, t: ThreadId)
    requires t in s.stages && s.stages[t].Leaving?
    ensures Runs(s, [Leave(t)], s.(lock := Free, stages := s.stages - {t}))
  {
    var end := s.(lock := Free, stages := s.stages - {t});
    assert [Leave(t)][1..] == [] && Runs(end, [], end);
  }

  /** Acting from here `n` times and leaving. */
  lemma {:induction false} ActsThenLeaves(s: State, t: ThreadId, n: nat, end: State)
    requires Acts(s, t, n, end)
    ensures Runs(s, seq(n, i => Act(t)) + [Leave(t)], end.(lock := Free, stages := end.stages - {t}))
    decreases n
  {
    hide Acted, Runs;
    var tail := seq(n, i => Act(t)) + [Leave(t)];
    if n == 0 {
      Leaves(s, t);
      assert tail == [Leave(t)];
    } else {
      ActsThenLeaves(Acted(s, t), t, n - 1, end);
      assert tail == [Act(t)] + (seq(n - 1, i => Act(t)) + [Leave(t)]);
      OneMore(s, Act(t), seq(n - 1, i => Act(t)) + [Leave(t)], end.(lock := Free, stages := end.stages - {t}));
    }
  }

  ghost predicate Acts(s: State, t: ThreadId, n: nat, end: State)
    decreases n
  {
    && t in s.stages
    && if n == 0 then s == end && s.stages[t].Leaving?
       else !s.stages[t].Sweeping? && !s.stages[t].Leaving? && Acts(Acted(s, t), t, n - 1, end)
  }

  /** Run without interruption, every critical section has exactly the effect of its coarse step, found or not. */
  lemma SectionAlone(s: State, t: ThreadId, op: Op)
    requires Inv(s) && s.lock.Free? && t !in s.core.jobs && !op.OpSweep?
    ensures Q.Closed(s.core) && Q.Enabled(s.core, CoarseOp(t, op))
    ensures Runs(s, Section(s, t, op), s.(core := Q.Apply(s.core, CoarseOp(t, op))))
  {
    Idle(s, t, op);
    hide Inv, Q.Inv, Q.Apply, Q.Enabled, Q.Closed, Runs, Acts, Acted;
    var entered := State(s.core, HeldBy(t), map[t := Entered(op)]);
    var after := s.(core := Q.Apply(s.core, CoarseOp(t, op)));
    var end := State(after.core, HeldBy(t), map[t := Leaving]);
    var acts: nat := |Section(s, t, op)| - 2;
    SectionActs(s, entered, t, op, acts, end);
    ActsThenLeaves(entered, t, acts, end);
    assert end.(lock := Free, stages := end.stages - {t}) == after;
    OneMore(s, Enter(t, op), seq(acts, i => Act(t)) + [Leave(t)], after);
  }

  /** With the mutex free nobody is inside, and the coarse step is possible. */
  lemma Idle(s: State, t: ThreadId, op: Op)
    requires Inv(s) && s.lock.Free? && t !in s.core.jobs && !op.OpSweep?
    ensures s.stages == map[] && Q.Inv(s.core) && s.core.mutex.Free?
    ensures Q.Closed(s.core) && Q.Enabled(s.core, CoarseOp(t, op))
    ensures Enabled(s, Enter(t, op)) && Apply(s, Enter(t, op)) == State(s.core, HeldBy(t), map[t := Entered(op)])
  {
    assert View(s) == s.core && s.stages == map[];
  }

  lemma SectionActs(s: State, entered: State, t: ThreadId, op: Op, acts: nat, end: State)
    requires Q.Inv(s.core) && s.core.mutex.Free? && t !in s.core.jobs && s.stages == map[] && !op.OpSweep?
    requires Q.Enabled(s.core, CoarseOp(t, op))
    requires entered == State(s.core, HeldBy(t), map[t := Entered(op)])
    requires acts == |Section(s, t, op)| - 2
    requires end == State(Q.Apply(s.core, CoarseOp(t, op)), HeldBy(t), map[t := Leaving])
    ensures Acts(entered, t, acts, end)
  {
    var one := Acted(entered, t);
    var two := if acts >= 2 then Acted(one, t) else one;
    var three := if acts >= 3 then Acted(two, t) else two;
    assert three == end;
    if acts >= 3 {
      assert Acts(three, t, 0, end) && Acts(two, t, 1, end) && Acts(one, t, 2, end);
    } else if acts == 2 {
      assert Acts(two, t, 0, end) && Acts(one, t, 1, end);
    } else {
      assert Acts(one, t, 0, end);
    }
  }

  /** With the mutex free nothing holds up sends and receives; inside its critical section a thread does not send. */
  lemma SendsAreFree(s: State, c: Q.Step)
    requires Inv(s) && Q.Closed(s.core) && (c.SendAnswer? || c.SendError? || c.ReceiveAnswer? || c.ReceiveError?)
    ensures s.lock.Free? ==> (Enabled(s, Core(c)) <==> Q.Enabled(s.core, c))
    ensures c.ReceiveAnswer? || c.ReceiveError? ==> (Enabled(s, Core(c)) <==> Q.Enabled(s.core, c))
    ensures (c.SendAnswer? || c.SendError?) && c.t in s.stages && !s.stages[c.t].Sweeping? ==> !Enabled(s, Core(c))
  {
  }

  /** Exactly-once resolution with the mutex taken apart: in any interleaving of its single reads and writes. */
  lemma LockedExactlyOnce(steps: seq<Step>, s: State, h: Handle)
    requires Runs(INITIAL, steps, s) && h < |s.core.queries|
    ensures Q.NothingDropped(s.core.queries[h])
    ensures Q.IsPending(View(s), h) || Q.IsHeld(s.core, h) ==> Q.IsFresh(s.core.queries[h])
    ensures !(Q.IsPending(View(s), h) && Q.IsHeld(s.core, h))
    ensures !Q.IsPending(View(s), h) && !Q.IsHeld(s.core, h)
            ==> Q.IsAnswered(s.core.queries[h]) != Q.IsFailed(s.core.queries[h])
  {
    hide Q.Runs, Q.OnceEach, Q.IsFresh, Q.IsAnswered, Q.IsFailed, Q.NothingDropped, Runs;
    InvInitially();
    var coarse := RunsRefine(INITIAL, steps, s);
    Q.EveryQueryInOneClass(coarse, View(s), h);
    assert forall t :: Q.Holds(View(s), t, h) <==> Q.Holds(s.core, t, h);
  }

  /**
   Two threads never find the same entry: the one that has found an entry is alone in its critical
   section, and until it deletes the entry nobody else has taken it.
   */
  lemma OneFinder(steps: seq<Step>, s: State, t: ThreadId)
    requires Runs(INITIAL, steps, s) && t in s.stages && s.stages[t].Found?
    ensures forall u :: u in s.stages ==> u == t
    ensures var h := s.stages[t].h;
            && h < |s.core.queries| && Q.IsPending(s.core, h) && !Q.IsHeld(s.core, h) && Q.IsFresh(s.core.queries[h])
  {
    InvInitially();
    var coarse := RunsRefine(INITIAL, steps, s);
    var h := s.stages[t].h;
    assert StillSo(s.core, t, s.stages[t]) && View(s) == s.core;
    assert Q.OnceEach(s.core, h);
  }
}
