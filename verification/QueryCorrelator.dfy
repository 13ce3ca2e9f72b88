/**
 The query correlator as a step system. The mutex covers the map; the channel sends of deliver,
 fail and failAll happen after it is released, so taking an entry out of the map and resolving
 it are separate steps, and any other step may come between them. The sweep of expired entries
 keeps the mutex throughout. A query is named by its handle, the identity of its record:
 query ids are chosen at random and may be used again.
 */
module QueryCorrelator {
  import opened Bytes

  type QueryId = int64
  type Handle = nat
  type ThreadId = nat
  type Time = int
  type Payload = seq<byte>

  datatype Cause = RequestTimeout | Other(code: int)

  /** A channel of capacity one: its buffer, every value sent into it, and refused sends. */
  datatype Channel<T> = Channel(buffer: seq<T>, sent: seq<T>, dropped: nat) {
    /** The non-blocking send: a full buffer takes the default branch. */
    function Offer(v: T): (c: Channel<T>)
      ensures buffer != [] ==> c == Channel(buffer, sent, dropped + 1)
      ensures buffer == [] ==> c == Channel([v], sent + [v], dropped)
    {
      if buffer == [] then Channel([v], sent + [v], dropped) else this.(dropped := dropped + 1)
    }
    function Receive(): Channel<T> { this.(buffer := []) }
  }

  datatype Query = Query(id: QueryId, deadline: Time, answer: Channel<Payload>, err: Channel<Cause>)

  /** Which operation took the entries it is about to fail. */
  datatype Origin = FromFail | FromSweep | FromFailAll

  /** What a thread holds between taking entries out of the map and resolving them. */
  datatype Job = Answering(handle: Handle, payload: Payload) | Failing(todo: set<Handle>, cause: Cause, origin: Origin)
  {
    function Handles(): set<Handle> { if Answering? then {handle} else todo }
  }

  datatype Mutex = Free | Sweeping(owner: ThreadId, now: Time)

  datatype State = State(pending: map<QueryId, Handle>, closed: bool, queries: seq<Query>, jobs: map<ThreadId, Job>,
      mutex: Mutex)
  {
    function Expired(id: QueryId): bool
      requires id in pending && pending[id] < |queries| && mutex.Sweeping?
    {
      mutex.now > queries[pending[id]].deadline
    }
  }

  const INITIAL := State(map[], false, [], map[], Free)

  const EMPTY_ANSWER: Channel<Payload> := Channel([], [], 0)
  const EMPTY_ERROR: Channel<Cause> := Channel([], [], 0)

  datatype Step =
    | Register(id: QueryId, deadline: Time)
    | TakeForAnswer(t: ThreadId, id: QueryId, payload: Payload)
    | TakeForError(t: ThreadId, id: QueryId, cause: Cause)
    | TakeAll(t: ThreadId, cause: Cause)
    | SendAnswer(t: ThreadId)
    | SendError(t: ThreadId, handle: Handle)
    | SweepBegin(t: ThreadId, now: Time)
    | SweepTake(t: ThreadId, id: QueryId)
    | SweepEnd(t: ThreadId)
    | ReceiveAnswer(handle: Handle)
    | ReceiveError(handle: Handle)

  function Handles(pending: map<QueryId, Handle>): set<Handle> { set id | id in pending :: pending[id] }

  /** Thread `t` has taken query `h` and has yet to resolve it. */
  predicate Holds(s: State, t: ThreadId, h: Handle) { t in s.jobs && h in s.jobs[t].Handles() }

  /** Well-formedness of the references; kept by every step. */
  ghost predicate Closed(s: State) {
    && (forall id :: id in s.pending ==> s.pending[id] < |s.queries|)
    && (forall t: ThreadId, h: Handle :: Holds(s, t, h) ==> h < |s.queries|)
  }

  ghost predicate Enabled(s: State, step: Step)
    requires Closed(s)
  {
    match step
    case Register(_, _) => s.mutex.Free?
    case TakeForAnswer(t, _, _) => s.mutex.Free? && t !in s.jobs
    case TakeForError(t, _, _) => s.mutex.Free? && t !in s.jobs
    case TakeAll(t, _) => s.mutex.Free? && t !in s.jobs
    case SendAnswer(t) => t in s.jobs && s.jobs[t].Answering?
    case SendError(t, h) => t in s.jobs && s.jobs[t].Failing? && h in s.jobs[t].todo
    case SweepBegin(t, _) => s.mutex.Free? && t !in s.jobs
    case SweepTake(t, id) => s.mutex.Sweeping? && s.mutex.owner == t && t !in s.jobs && id in s.pending && s.Expired(id)
    case SweepEnd(t) => s.mutex.Sweeping? && s.mutex.owner == t && t !in s.jobs &&
                        forall id :: id in s.pending ==> !s.Expired(id)
    case ReceiveAnswer(h) => h < |s.queries| && s.queries[h].answer.buffer != []
    case ReceiveError(h) => h < |s.queries| && s.queries[h].err.buffer != []
  }

  ghost function Apply(s: State, step: Step): State
    requires Closed(s) && Enabled(s, step)
  {
    match step
    case Register(id, deadline) =>
      if s.closed || id in s.pending then s
      else s.(pending := s.pending[id := |s.queries|],
              queries := s.queries + [Query(id, deadline, EMPTY_ANSWER, EMPTY_ERROR)])
    case TakeForAnswer(t, id, payload) =>
      if id !in s.pending then s
      else s.(pending := s.pending - {id}, jobs := s.jobs[t := Answering(s.pending[id], payload)])
    case TakeForError(t, id, cause) =>
      if id !in s.pending then s
      else s.(pending := s.pending - {id}, jobs := s.jobs[t := Failing({s.pending[id]}, cause, FromFail)])
    case TakeAll(t, cause) =>
      s.(pending := map[], closed := true,
         jobs := if s.pending.Keys == {} then s.jobs else s.jobs[t := Failing(Handles(s.pending), cause, FromFailAll)])
    case SendAnswer(t) =>
      var Answering(h, payload) := s.jobs[t];
      assert Holds(s, t, h);
      s.(queries := s.queries[h := s.queries[h].(answer := s.queries[h].answer.Offer(payload))], jobs := s.jobs - {t})
    case SendError(t, h) =>
      var Failing(todo, cause, origin) := s.jobs[t];
      assert Holds(s, t, h);
      s.(queries := s.queries[h := s.queries[h].(err := s.queries[h].err.Offer(cause))],
         jobs := if todo == {h} then s.jobs - {t} else s.jobs[t := Failing(todo - {h}, cause, origin)])
    case SweepBegin(t, now) => if s.closed then s else s.(mutex := Sweeping(t, now))
    case SweepTake(t, id) =>
      s.(pending := s.pending - {id}, jobs := s.jobs[t := Failing({s.pending[id]}, RequestTimeout, FromSweep)])
    case SweepEnd(_) => s.(mutex := Free)
    case ReceiveAnswer(h) => s.(queries := s.queries[h := s.queries[h].(answer := s.queries[h].answer.Receive())])
    case ReceiveError(h) => s.(queries := s.queries[h := s.queries[h].(err := s.queries[h].err.Receive())])
  }

  /** While a sweep holds the mutex, everybody else can only send and receive. */
  lemma MutexExcludes(s: State, step: Step)
    requires Closed(s) && s.mutex.Sweeping? && Enabled(s, step)
    ensures || step.SendAnswer? || step.SendError? || step.ReceiveAnswer? || step.ReceiveError?
            || ((step.SweepTake? || step.SweepEnd?) && step.t == s.mutex.owner)
  {
  }

  // ---- the four classes a registered query can be in --------------------------------------

  predicate IsPending(s: State, h: Handle)
    requires h < |s.queries|
  {
    s.queries[h].id in s.pending && s.pending[s.queries[h].id] == h
  }

  ghost predicate IsHeld(s: State, h: Handle) {
    exists t: ThreadId :: Holds(s, t, h)
  }

  predicate IsAnswered(q: Query) { |q.answer.sent| == 1 && q.err.sent == [] }
  predicate IsFailed(q: Query) { q.answer.sent == [] && |q.err.sent| == 1 }
  predicate IsFresh(q: Query) { q.answer == EMPTY_ANSWER && q.err == EMPTY_ERROR }
  predicate NothingDropped(q: Query) { q.answer.dropped == 0 && q.err.dropped == 0 }

  /** A live query has been sent nothing; a query in no map and no job was resolved exactly once. */
  ghost predicate OnceEach(s: State, h: Handle)
    requires h < |s.queries|
  {
    var q := s.queries[h];
    && NothingDropped(q)
    && !(IsPending(s, h) && IsHeld(s, h))
    && (IsPending(s, h) || IsHeld(s, h) ==> IsFresh(q))
    && (!IsPending(s, h) && !IsHeld(s, h) ==> IsAnswered(q) || IsFailed(q))
  }

  ghost predicate Inv(s: State) {
    && Closed(s)
    && (forall id :: id in s.pending ==> s.queries[s.pending[id]].id == id)
    && (forall t: ThreadId, u: ThreadId, h: Handle :: Holds(s, t, h) && Holds(s, u, h) ==> t == u)
    && (forall h: Handle :: h < |s.queries| ==> OnceEach(s, h))
    && (s.closed ==> s.pending == map[])
  }

  lemma InvInitially()
    ensures Inv(INITIAL)
  {
  }

  lemma RegisterKeepsInv(s: State, id: QueryId, deadline: Time)
    requires Inv(s) && Enabled(s, Register(id, deadline))
    ensures Inv(Apply(s, Register(id, deadline)))
  {
    var s' := Apply(s, Register(id, deadline));
    if s' != s {
      var n := |s.queries|;
      assert forall t, h :: Holds(s', t, h) == Holds(s, t, h);
      forall h: Handle | h < |s'.queries|
        ensures OnceEach(s', h)
      {
        assert IsHeld(s', h) == IsHeld(s, h);
        if h < n {
          assert OnceEach(s, h);
          assert IsPending(s', h) == IsPending(s, h);
        }
      }
    }
  }

  /** Moving entries from the map into one thread's job, whichever operation does it. */
  lemma TakeKeepsInv(s: State, s': State, t: ThreadId, ids: set<QueryId>)
    requires Inv(s) && t !in s.jobs && t in s'.jobs
    requires ids <= s.pending.Keys && s'.pending == s.pending - ids
    requires s'.queries == s.queries && s'.jobs == s.jobs[t := s'.jobs[t]]
    requires forall h :: h in s'.jobs[t].Handles() <==> exists id :: id in ids && s.pending[id] == h
    requires s'.closed ==> s'.pending == map[]
    ensures Inv(s')
  {
    forall u, h
      ensures Holds(s', u, h) == if u == t then (exists id :: id in ids && s.pending[id] == h) else Holds(s, u, h)
    {
    }
    forall h: Handle | h < |s'.queries|
      ensures OnceEach(s', h)
    {
      assert OnceEach(s, h);
      var id := s.queries[h].id;
      if IsPending(s, h) && id in ids {
        assert Holds(s', t, h);
        assert !IsPending(s', h);
      } else {
        assert IsPending(s', h) == IsPending(s, h);
        assert !Holds(s', t, h);
        assert IsHeld(s', h) == IsHeld(s, h) by {
          if IsHeld(s, h) {
            var u :| Holds(s, u, h);
            assert Holds(s', u, h);
          }
        }
      }
    }
    forall u, v, h | Holds(s', u, h) && Holds(s', v, h)
      ensures u == v
    {
      if u != v && (u == t || v == t) {
        var w := if u == t then v else u;
        assert Holds(s, w, h) && IsHeld(s, h);
        var id :| id in ids && s.pending[id] == h;
        assert OnceEach(s, h) && IsPending(s, h);
        assert false;
      }
    }
  }

  /** Resolving one held query: it is sent one value, into an empty channel. */
  lemma ResolveKeepsInv(s: State, s': State, t: ThreadId, h: Handle)
    requires Inv(s) && Holds(s, t, h)
    requires s'.pending == s.pending && s'.closed == s.closed && |s'.queries| == |s.queries|
    requires forall k: Handle :: k < |s.queries| && k != h ==> s'.queries[k] == s.queries[k]
    requires s'.queries[h].id == s.queries[h].id && NothingDropped(s'.queries[h])
    requires IsAnswered(s'.queries[h]) || IsFailed(s'.queries[h])
    requires forall u, k :: Holds(s', u, k) <==> Holds(s, u, k) && !(u == t && k == h)
    ensures Inv(s')
  {
    forall k: Handle | k < |s'.queries|
      ensures OnceEach(s', k)
    {
      assert OnceEach(s, k);
      assert IsPending(s', k) == IsPending(s, k);
      if k == h {
        assert IsHeld(s, h);
        assert !IsHeld(s', h);
      } else if IsHeld(s, k) {
        var u :| Holds(s, u, k);
        assert Holds(s', u, k);
      }
    }
  }

  lemma SendKeepsInv(s: State, step: Step)
    requires step.SendAnswer? || step.SendError?
    requires Inv(s) && Enabled(s, step)
    ensures Inv(Apply(s, step))
  {
    var t := step.t;
    var h := if step.SendAnswer? then s.jobs[t].handle else step.handle;
    assert Holds(s, t, h) && IsHeld(s, h) && OnceEach(s, h);
    ResolveKeepsInv(s, Apply(s, step), t, h);
  }

  lemma ReceiveKeepsInv(s: State, step: Step)
    requires step.ReceiveAnswer? || step.ReceiveError?
    requires Inv(s) && Enabled(s, step)
    ensures Inv(Apply(s, step))
  {
    var s' := Apply(s, step);
    assert forall t, h :: Holds(s', t, h) == Holds(s, t, h);
    forall h: Handle | h < |s'.queries|
      ensures OnceEach(s', h)
    {
      assert OnceEach(s, h);
      assert IsHeld(s', h) == IsHeld(s, h);
      assert IsPending(s', h) == IsPending(s, h);
      if h == step.handle {
        assert !IsFresh(s.queries[h]);
      }
    }
  }

  lemma StepKeepsInv(s: State, step: Step)
    requires Inv(s) && Enabled(s, step)
    ensures Inv(Apply(s, step))
  {
    var s' := Apply(s, step);
    match step
    case Register(id, deadline) => RegisterKeepsInv(s, id, deadline);
    case TakeForAnswer(t, id, _) => if id in s.pending { TakeKeepsInv(s, s', t, {id}); }
    case TakeForError(t, id, _) => if id in s.pending { TakeKeepsInv(s, s', t, {id}); }
    case TakeAll(t, _) =>
      if s.pending.Keys == {} {
        SameQueriesKeepInv(s, s');
      } else {
        TakeKeepsInv(s, s', t, s.pending.Keys);
      }
    case SendAnswer(_) => SendKeepsInv(s, step);
    case SendError(_, _) => SendKeepsInv(s, step);
    case SweepBegin(_, _) => SameQueriesKeepInv(s, s');
    case SweepTake(t, id) => TakeKeepsInv(s, s', t, {id});
    case SweepEnd(_) => SameQueriesKeepInv(s, s');
    case ReceiveAnswer(_) => ReceiveKeepsInv(s, step);
    case ReceiveError(_) => ReceiveKeepsInv(s, step);
  }

  lemma SameQueriesKeepInv(s: State, s': State)
    requires Inv(s)
    requires s'.pending == s.pending && s'.queries == s.queries && s'.jobs == s.jobs
    requires s'.closed ==> s'.pending == map[]
    ensures Inv(s')
  {
    assert forall t, h :: Holds(s', t, h) == Holds(s, t, h);
    forall h: Handle | h < |s'.queries|
      ensures OnceEach(s', h)
    {
      assert OnceEach(s, h);
      assert IsHeld(s', h) == IsHeld(s, h);
    }
  }

  // ---- every run ------------------------------------------------------------------------

  ghost predicate Runs(s: State, steps: seq<Step>, end: State)
    decreases |steps|
  {
    if steps == [] then end == s
    else Closed(s) && Enabled(s, steps[0]) && Runs(Apply(s, steps[0]), steps[1..], end)
  }

  lemma {:induction false} RunsKeepInv(s: State, steps: seq<Step>, end: State)
    requires Inv(s) && Runs(s, steps, end)
    ensures Inv(end)
    decreases |steps|
  {
    hide Apply, Enabled, Inv;
    if steps != [] {
      StepKeepsInv(s, steps[0]);
      RunsKeepInv(Apply(s, steps[0]), steps[1..], end);
    }
  }

  lemma {:induction false} RunsAppend(s: State, before: seq<Step>, mid: State, after: seq<Step>, end: State)
    requires Runs(s, before, mid) && Runs(mid, after, end)
    ensures Runs(s, before + after, end)
    decreases |before|
  {
    hide Apply, Enabled, Closed;
    if before == [] {
      assert [] + after == after;
    } else {
      assert (before + after)[1..] == before[1..] + after;
      RunsAppend(Apply(s, before[0]), before[1..], mid, after, end);
    }
  }

  /**
   Exactly-once resolution: after any interleaving, every query ever registered is in one and
   only one of the four classes, and no send has ever found its one-slot channel full.
   */
  lemma EveryQueryInOneClass(steps: seq<Step>, s: State, h: Handle)
    requires Runs(INITIAL, steps, s) && h < |s.queries|
    ensures NothingDropped(s.queries[h])
    ensures IsPending(s, h) ==> !IsHeld(s, h) && IsFresh(s.queries[h])
    ensures IsHeld(s, h) ==> !IsPending(s, h) && IsFresh(s.queries[h])
    ensures !IsPending(s, h) && !IsHeld(s, h) ==> IsAnswered(s.queries[h]) != IsFailed(s.queries[h])
  {
    InvInitially();
    RunsKeepInv(INITIAL, steps, s);
    assert OnceEach(s, h);
  }

  /** A registered query survives a sweep exactly if its deadline has not passed, and is timed out otherwise. */
  lemma RegisteredThenSwept(s: State, id: QueryId, deadline: Time, now: Time, end: State)
    requires Inv(s) && Enabled(s, Register(id, deadline)) && !s.closed && id !in s.pending
    requires var s' := Apply(s, Register(id, deadline)); Closed(s') && Swept(s', now, end)
    ensures id in end.pending <==> now <= deadline
    ensures now > deadline ==> |s.queries| < |end.queries| && end.queries[|s.queries|].err.buffer == [RequestTimeout]
  {
    assert Apply(s, Register(id, deadline)).pending[id] == |s.queries|;
  }

  // ---- conservation -----------------------------------------------------------------------

  ghost function Range(n: nat): (r: set<Handle>)
    ensures forall h: Handle :: h in r <==> h < n
  {
    if n == 0 then {} else Range(n - 1) + {n - 1}
  }

  ghost function PendingSet(s: State): set<Handle> { set h: nat | 0 <= h < |s.queries| && IsPending(s, h) }
  ghost function HeldSet(s: State): set<Handle> { set h: nat | 0 <= h < |s.queries| && IsHeld(s, h) }
  ghost function AnsweredSet(s: State): set<Handle> { set h: nat | 0 <= h < |s.queries| && IsAnswered(s.queries[h]) }
  ghost function FailedSet(s: State): set<Handle> { set h: nat | 0 <= h < |s.queries| && IsFailed(s.queries[h]) }

  lemma {:induction false} RangeSize(n: nat)
    ensures |Range(n)| == n
  {
    if n > 0 {
      RangeSize(n - 1);
    }
  }

  lemma {:induction false} HandlesCount(m: map<QueryId, Handle>)
    requires forall a, b :: a in m && b in m && m[a] == m[b] ==> a == b
    ensures |Handles(m)| == |m|
    decreases |m|
  {
    hide Handles;
    if id :| id in m {
      var rest := m - {id};
      KeysMinusOne(m, id);
      HandlesCount(rest);
      HandlesMinusOne(m, id);
    } else {
      NoHandles(m);
    }
  }

  lemma NoHandles(m: map<QueryId, Handle>)
    requires forall id :: id !in m
    ensures Handles(m) == {} && |m| == 0
  {
    assert m.Keys == {};
  }

  lemma HandlesMinusOne(m: map<QueryId, Handle>, id: QueryId)
    requires id in m && forall a, b :: a in m && b in m && m[a] == m[b] ==> a == b
    ensures m[id] !in Handles(m - {id}) && Handles(m) == Handles(m - {id}) + {m[id]}
  {
    var rest := m - {id};
    assert forall k :: k in rest ==> k in m && rest[k] == m[k] && k != id;
    forall h
      ensures h in Handles(m) <==> h in Handles(rest) || h == m[id]
    {
      if h in Handles(m) {
        var k :| k in m && m[k] == h;
        assert k != id ==> k in rest && rest[k] == h;
      }
    }
  }

  lemma ClassesPartition(s: State)
    requires Inv(s)
    ensures Range(|s.queries|) == PendingSet(s) + HeldSet(s) + AnsweredSet(s) + FailedSet(s)
    ensures PendingSet(s) !! HeldSet(s) !! AnsweredSet(s) !! FailedSet(s)
    ensures PendingSet(s) == Handles(s.pending)
  {
    hide IsPending, IsHeld, IsAnswered, IsFailed, IsFresh;
    forall h: nat | h < |s.queries|
      ensures h in PendingSet(s) + HeldSet(s) + AnsweredSet(s) + FailedSet(s)
      ensures !(h in PendingSet(s) && h in HeldSet(s)) && !(h in AnsweredSet(s) && h in FailedSet(s))
      ensures !(h in PendingSet(s) + HeldSet(s) && h in AnsweredSet(s) + FailedSet(s))
      ensures h in PendingSet(s) <==> h in Handles(s.pending)
    {
      OneClass(s, h);
    }
  }

  lemma OneClass(s: State, h: Handle)
    requires Inv(s) && h < |s.queries|
    ensures !(IsPending(s, h) && IsHeld(s, h)) && !(IsAnswered(s.queries[h]) && IsFailed(s.queries[h]))
    ensures IsPending(s, h) || IsHeld(s, h) <==> !(IsAnswered(s.queries[h]) || IsFailed(s.queries[h]))
    ensures IsPending(s, h) <==> h in Handles(s.pending)
  {
    assert OnceEach(s, h);
  }

  /** Registrations are conserved: pending, in hand, answered and failed queries add up to them. */
  lemma RegistrationsAddUp(steps: seq<Step>, s: State)
    requires Runs(INITIAL, steps, s)
    ensures |s.queries| == |s.pending| + |HeldSet(s)| + |AnsweredSet(s)| + |FailedSet(s)|
  {
    InvInitially();
    RunsKeepInv(INITIAL, steps, s);
    HandlesCount(s.pending);
    RangeSize(|s.queries|);
    ClassesPartition(s);
    hide *;
    var p, q, a, f := PendingSet(s), HeldSet(s), AnsweredSet(s), FailedSet(s);
    assert |p + q + a + f| == |p + q + a| + |f| == |p + q| + |a| + |f| == |p| + |q| + |a| + |f|;
  }

  // ---- the operations as the source runs them ----------------------------------------------

  /**
   The object itself. Each operation is given the identity of the calling thread and reports,
   as a ghost, the run of steps it performs when no other thread gets in between.
   */
  class Correlator {
    var pending: map<QueryId, Handle>
    var closed: bool
    var queries: seq<Query>
    /** What other threads are holding. */
    ghost var jobs: map<ThreadId, Job>

    constructor ()
      ensures View() == INITIAL
    {
      pending, closed, queries, jobs := map[], false, [], map[];
    }

    ghost function View(): State
      reads this
    {
      State(pending, closed, queries, jobs, Free)
    }

    method Register(id: QueryId, deadline: Time) returns (handle: Handle, ok: bool, ghost steps: seq<Step>)
      requires Inv(View())
      modifies this`pending, this`queries
      ensures Runs(old(View()), steps, View())
      ensures ok == (!closed && id !in old(pending))
      ensures ok ==>
                && handle == |old(queries)| == |queries| - 1
                && pending == old(pending)[id := handle]
                && queries == old(queries) + [Query(id, deadline, EMPTY_ANSWER, EMPTY_ERROR)]
      ensures steps == [Step.Register(id, deadline)]
      ensures !ok ==> handle == 0 && View() == old(View())
    {
      steps := [Step.Register(id, deadline)];
      if closed {
        return 0, false, steps;
      }
      if id in pending {
        return 0, false, steps;
      }
      handle := |queries|;
      queries := queries + [Query(id, deadline, EMPTY_ANSWER, EMPTY_ERROR)];
      pending := pending[id := handle];
      ok := true;
    }

    method Deliver(ghost t: ThreadId, id: QueryId, payload: Payload) returns (ok: bool, ghost steps: seq<Step>)
      requires Inv(View()) && t !in jobs
      modifies this`pending, this`queries
      ensures Runs(old(View()), steps, View())
      ensures ok == (id in old(pending)) && pending == old(pending) - {id}
      ensures steps == [TakeForAnswer(t, id, payload)] + if ok then [SendAnswer(t)] else []
      ensures queries == if !ok then old(queries) else
                var pq := old(pending)[id];
                old(queries)[pq := old(queries)[pq].(answer := Channel([payload], [payload], 0))]
    {
      steps := [TakeForAnswer(t, id, payload)];
      if id !in pending {
        return false, steps;
      }
      var pq := pending[id];
      assert OnceEach(View(), pq) && IsPending(View(), pq);
      assert queries[pq].answer.Offer(payload) == Channel([payload], [payload], 0);
      pending := pending - {id};
      queries := queries[pq := queries[pq].(answer := queries[pq].answer.Offer(payload))];
      ok := true;
      steps := [TakeForAnswer(t, id, payload), SendAnswer(t)];
      StepKeepsInv(old(View()), steps[0]);
      TwoStepRun(old(View()), steps[0], steps[1], View());
    }

    method Fail(ghost t: ThreadId, id: QueryId, cause: Cause) returns (ok: bool, ghost steps: seq<Step>)
      requires Inv(View()) && t !in jobs
      modifies this`pending, this`queries
      ensures Runs(old(View()), steps, View())
      ensures ok == (id in old(pending)) && pending == old(pending) - {id}
      ensures steps == [TakeForError(t, id, cause)] + if ok then [SendError(t, old(pending)[id])] else []
      ensures queries == if !ok then old(queries) else
                var pq := old(pending)[id]; old(queries)[pq := old(queries)[pq].(err := Channel([cause], [cause], 0))]
    {
      steps := [TakeForError(t, id, cause)];
      if id !in pending {
        return false, steps;
      }
      var pq := pending[id];
      assert OnceEach(View(), pq) && IsPending(View(), pq);
      assert queries[pq].err.Offer(cause) == Channel([cause], [cause], 0);
      pending := pending - {id};
      queries := queries[pq := queries[pq].(err := queries[pq].err.Offer(cause))];
      ok := true;
      steps := [TakeForError(t, id, cause), SendError(t, pq)];
      StepKeepsInv(old(View()), steps[0]);
      TwoStepRun(old(View()), steps[0], steps[1], View());
    }

    method FailAll(ghost t: ThreadId, cause: Cause) returns (ghost steps: seq<Step>)
      requires Inv(View()) && t !in jobs
      modifies this`pending, this`queries, this`closed
      ensures Runs(old(View()), steps, View())
      ensures closed && pending == map[] && |queries| == |old(queries)|
      ensures forall id :: id in old(pending) ==> queries[old(pending)[id]].err.buffer == [cause]
      ensures forall h: Handle :: h < |queries| && h !in Handles(old(pending)) ==> queries[h] == old(queries)[h]
    {
      hide Apply, Enabled, Inv, Runs, Handles;
      ghost var start := View();
      var taken := Handles(pending);
      pending := map[];
      closed := true;
      steps := [TakeAll(t, cause)];
      BeginDrain(start, t, cause);
      var todo := taken;
      while todo != {}
        invariant todo <= taken && pending == map[] && closed && |queries| == |start.queries| && jobs == start.jobs
        invariant Inv(Draining(start, queries, t, todo, cause))
        invariant Runs(start, steps, Draining(start, queries, t, todo, cause))
        invariant forall h :: h in taken - todo ==> queries[h].err.buffer == [cause]
        invariant forall h: Handle :: h < |queries| && h !in taken ==> queries[h] == start.queries[h]
        decreases todo
      {
        var pq :| pq in todo;
        ResolveOne(start, steps, queries, t, todo, pq, cause);
        queries := queries[pq := queries[pq].(err := queries[pq].err.Offer(cause))];
        todo := todo - {pq};
        steps := steps + [SendError(t, pq)];
      }
    }

    /** One round of the sweep, the mutex held: an entry past its deadline is removed and timed out. */
    method SweepEntry(ghost t: ThreadId, now: Time, id: QueryId, ghost start: State, ghost steps: seq<Step>,
        ghost todo: set<QueryId>)
      returns (expired: bool, ghost more: seq<Step>)
      requires Inv(start) && Inv(View().(mutex := Sweeping(t, now))) && t !in jobs
      requires id in todo && todo <= pending.Keys
      requires SweptSoFar(start, now, View().(mutex := Sweeping(t, now)), todo)
              && Runs(start, steps, View().(mutex := Sweeping(t, now)))
      modifies this`pending, this`queries
      ensures Inv(View().(mutex := Sweeping(t, now)))
      ensures SweptSoFar(start, now, View().(mutex := Sweeping(t, now)), todo - {id})
              && Runs(start, more, View().(mutex := Sweeping(t, now)))
      ensures todo - {id} <= pending.Keys && |pending| == |old(pending)| - if expired then 1 else 0
    {
      hide Inv, Runs, Apply, Enabled, SweptSoFar, Closed, IsFresh;
      ghost var mid := View().(mutex := Sweeping(t, now));
      more := steps;
      SweepVisit(start, now, mid, todo, id);
      var pq := pending[id];
      expired := now > queries[pq].deadline;
      if expired {
        ghost var next := ExpireOne(start, steps, mid, t, id);
        KeysMinusOne(pending, id);
        pending := pending - {id};
        queries := queries[pq := queries[pq].(err := queries[pq].err.Offer(RequestTimeout))];
        more := steps + [SweepTake(t, id), SendError(t, pq)];
        SweptOneMore(start, now, mid, next, todo, id);
      }
    }

    method GcExpired(ghost t: ThreadId, now: Time) returns (count: nat, ghost steps: seq<Step>)
      requires Inv(View()) && t !in jobs
      modifies this`pending, this`queries
      ensures Runs(old(View()), steps, View())
      ensures closed ==> count == 0 && View() == old(View())
      ensures !closed ==> Swept(old(View()), now, View()) && count == |old(pending)| - |pending|
    {
      hide Inv, Runs, Apply, Enabled, Swept, SweptSoFar, Closed;
      steps := [SweepBegin(t, now)];
      count := 0;
      ghost var start := View();
      BeginSweep(start, t, now);
      if closed {
        return;
      }
      ghost var mid := start.(mutex := Sweeping(t, now));
      var todo := pending.Keys;
      while todo != {}
        invariant mid == View().(mutex := Sweeping(t, now)) && Inv(mid) && Runs(start, steps, mid)
        invariant todo <= pending.Keys
        invariant SweptSoFar(start, now, mid, todo)
        invariant count == |start.pending| - |pending|
        decreases todo
      {
        var id :| id in todo;
        var expired;
        expired, steps := SweepEntry(t, now, id, start, steps, todo);
        if expired {
          count := count + 1;
        }
        mid := View().(mutex := Sweeping(t, now));
        todo := todo - {id};
      }
      FinishSweep(start, steps, mid, t, now);
      steps := steps + [SweepEnd(t)];
    }
  }

  lemma BeginSweep(start: State, t: ThreadId, now: Time)
    requires Inv(start) && start.mutex.Free? && t !in start.jobs
    ensures Closed(start)
    ensures start.closed ==> Runs(start, [SweepBegin(t, now)], start)
    ensures var mid := start.(mutex := Sweeping(t, now));
            !start.closed ==> Inv(mid) && Runs(start, [SweepBegin(t, now)], mid)
    ensures SweptSoFar(start, now, start.(mutex := Sweeping(t, now)), start.pending.Keys)
  {
    var step := SweepBegin(t, now);
    StepKeepsInv(start, step);
    assert [step][1..] == [] && Runs(Apply(start, step), [], Apply(start, step));
  }

  lemma FinishSweep(start: State, steps: seq<Step>, mid: State, t: ThreadId, now: Time)
    requires Closed(start) && Inv(mid) && Runs(start, steps, mid) && mid.mutex == Sweeping(t, now) && t !in mid.jobs
    requires SweptSoFar(start, now, mid, {})
    ensures Runs(start, steps + [SweepEnd(t)], mid.(mutex := Free)) && Swept(start, now, mid.(mutex := Free))
  {
    var step := SweepEnd(t);
    assert Enabled(mid, step);
    assert [step][1..] == [] && Runs(Apply(mid, step), [], Apply(mid, step));
    RunsAppend(start, steps, mid, [step], Apply(mid, step));
  }

  /** The state of a shutdown that has emptied the map and still has `todo` to resolve. */
  ghost function Draining(start: State, queries: seq<Query>, t: ThreadId, todo: set<Handle>, cause: Cause): State {
    State(map[], true, queries,
          if todo == {} then start.jobs else start.jobs[t := Failing(todo, cause, FromFailAll)], Free)
  }

  lemma BeginDrain(start: State, t: ThreadId, cause: Cause)
    requires Inv(start) && start.mutex.Free? && t !in start.jobs
    ensures var mid := Draining(start, start.queries, t, Handles(start.pending), cause);
            Inv(mid) && Runs(start, [TakeAll(t, cause)], mid)
    ensures forall id :: id in start.pending ==> start.pending[id] in Handles(start.pending)
    ensures forall h :: h in Handles(start.pending) ==> h < |start.queries|
  {
    var step := TakeAll(t, cause);
    var mid := Draining(start, start.queries, t, Handles(start.pending), cause);
    assert Handles(start.pending) == {} <==> start.pending.Keys == {} by {
      assert forall id :: id in start.pending.Keys ==> start.pending[id] in Handles(start.pending);
    }
    assert mid == Apply(start, step);
    StepKeepsInv(start, step);
    assert [step][1..] == [] && Runs(mid, [], mid);
  }

  lemma ResolveOne(start: State, steps: seq<Step>, queries: seq<Query>, t: ThreadId, todo: set<Handle>, h: Handle,
      cause: Cause)
    requires t !in start.jobs && h in todo
    requires Inv(Draining(start, queries, t, todo, cause))
            && Runs(start, steps, Draining(start, queries, t, todo, cause))
    ensures h < |queries| && queries[h].err.buffer == []
    ensures var q' := queries[h := queries[h].(err := queries[h].err.Offer(cause))];
            var next := Draining(start, q', t, todo - {h}, cause);
            Inv(next) && Runs(start, steps + [SendError(t, h)], next)
  {
    var mid := Draining(start, queries, t, todo, cause);
    var step := SendError(t, h);
    assert Holds(mid, t, h) && IsHeld(mid, h) && OnceEach(mid, h);
    var q' := queries[h := queries[h].(err := queries[h].err.Offer(cause))];
    var next := Draining(start, q', t, todo - {h}, cause);
    assert todo == {h} <==> todo - {h} == {};
    assert next == Apply(mid, step);
    StepKeepsInv(mid, step);
    assert [step][1..] == [] && Runs(next, [], next);
    RunsAppend(start, steps, mid, [step], next);
  }

  /** Of the entries outside `todo`, exactly those past their deadline are gone, each timed out. */
  ghost predicate SweptSoFar(start: State, now: Time, s: State, todo: set<QueryId>)
    requires Closed(start)
  {
    && |s.queries| == |start.queries| && s.pending.Keys <= start.pending.Keys && s.closed == start.closed
    && (forall id :: id in s.pending ==> s.pending[id] == start.pending[id] &&
                                         s.queries[s.pending[id]] == start.queries[start.pending[id]])
    && (forall id :: id in start.pending && id !in todo ==>
          (id in s.pending <==> !(now > start.queries[start.pending[id]].deadline)))
    && (forall id :: id in start.pending && id !in s.pending ==>
          s.queries[start.pending[id]].err.buffer == [RequestTimeout])
    && (forall h: Handle :: h < |s.queries| && h !in Handles(start.pending) ==> s.queries[h] == start.queries[h])
    && s.jobs == start.jobs
  }

  ghost predicate Swept(start: State, now: Time, s: State)
    requires Closed(start)
  {
    SweptSoFar(start, now, s, {})
  }

  lemma ExpireOne(start: State, steps: seq<Step>, mid: State, t: ThreadId, id: QueryId) returns (next: State)
    requires Inv(mid) && Runs(start, steps, mid) && t !in mid.jobs
    requires mid.mutex.Sweeping? && mid.mutex.owner == t && id in mid.pending && mid.Expired(id)
    ensures var pq := mid.pending[id];
            next == mid.(pending := mid.pending - {id},
                         queries := mid.queries[pq :=
                           mid.queries[pq].(err := mid.queries[pq].err.Offer(RequestTimeout))])
    ensures IsFresh(mid.queries[mid.pending[id]])
    ensures Inv(next) && Runs(start, steps + [SweepTake(t, id), SendError(t, mid.pending[id])], next)
  {
    var pq := mid.pending[id];
    assert OnceEach(mid, pq);
    var take, send := SweepTake(t, id), SendError(t, pq);
    StepKeepsInv(mid, take);
    next := Apply(Apply(mid, take), send);
    assert next.jobs == mid.jobs;
    StepKeepsInv(Apply(mid, take), send);
    TwoStepRun(mid, take, send, next);
    RunsAppend(start, steps, mid, [take, send], next);
  }

  lemma SweptOneMore(start: State, now: Time, mid: State, next: State, todo: set<QueryId>, id: QueryId)
    requires Inv(start) && Inv(mid) && SweptSoFar(start, now, mid, todo)
    requires id in todo && id in mid.pending && now > start.queries[start.pending[id]].deadline
    requires IsFresh(mid.queries[mid.pending[id]])
    requires var pq := mid.pending[id];
             next == mid.(pending := mid.pending - {id},
                          queries := mid.queries[pq :=
                            mid.queries[pq].(err := mid.queries[pq].err.Offer(RequestTimeout))])
    ensures SweptSoFar(start, now, next, todo - {id})
  {
    assert forall k :: k in start.pending && k != id ==> start.pending[k] != start.pending[id];
  }

  lemma SweepVisit(start: State, now: Time, mid: State, todo: set<QueryId>, id: QueryId)
    requires Inv(start) && Inv(mid) && SweptSoFar(start, now, mid, todo) && id in todo && id in mid.pending
    ensures mid.pending[id] < |mid.queries|
    ensures id in start.pending && start.pending[id] == mid.pending[id] && |start.queries| == |mid.queries|
    ensures mid.queries[mid.pending[id]] == start.queries[mid.pending[id]]
    ensures !(now > mid.queries[mid.pending[id]].deadline) ==> SweptSoFar(start, now, mid, todo - {id})
  {
  }

  lemma KeysMinusOne(m: map<QueryId, Handle>, id: QueryId)
    requires id in m
    ensures |m - {id}| == |m| - 1
  {
    assert m.Keys == (m - {id}).Keys + {id};
  }

  lemma TwoStepRun(s: State, a: Step, b: Step, end: State)
    requires Closed(s) && Enabled(s, a)
    requires Closed(Apply(s, a)) && Enabled(Apply(s, a), b)
    requires Apply(Apply(s, a), b) == end
    ensures Runs(s, [a, b], end)
  {
    assert [a, b][1..] == [b] && [b][1..] == [];
    assert Runs(end, [], end);
    assert Runs(Apply(s, a), [b], end);
  }
}
