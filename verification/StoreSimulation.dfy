/** The two stores side by side: over every sequence of operations they answer as the one ledger does. */
module StoreSimulation {
  import opened Wrappers
  import opened Ledger
  import opened MemoryStore
  import opened BboltStore

  method PerformInMemory(s: MemoryStore, op: Op) returns (a: Answer)
    requires s.Valid()
    modifies s
    ensures s.Valid() && s.Contents() == After(old(s.Contents()), op)
    ensures a == Answered(old(s.Contents()), op)
  {
    hide Flatten, Expired, Entries;
    match op
    case Put(proxy, request, p) =>
      s.PutSignedPayment(proxy, request, p);
      a := Done;
    case Get(proxy, request) => a := s.GetSignedPayment(proxy, request);
    case Delete(proxy, request) =>
      s.DeleteSignedPayment(proxy, request);
      a := Done;
    case List(proxy) =>
      var entries := s.ListSignedPayments(proxy);
      a := Listed(set e | e in entries);
    case GC(olderThan) =>
      var n := s.GCSignedPayments(olderThan);
      a := Removed(n);
  }

  method PerformInBbolt(s: BboltStore, op: Op) returns (a: Answer)
    requires s.Valid()
    modifies s
    ensures s.Valid() && s.Contents() == After(old(s.Contents()), op)
    ensures a == Answered(old(s.Contents()), op)
  {
    hide View, Expired, Entries, Sound, Inverse;
    match op
    case Put(proxy, request, p) =>
      s.PutSignedPayment(proxy, request, p);
      a := Done;
    case Get(proxy, request) => a := s.GetSignedPayment(proxy, request);
    case Delete(proxy, request) =>
      s.DeleteSignedPayment(proxy, request);
      a := Done;
    case List(proxy) =>
      var entries := s.ListSignedPayments(proxy);
      a := if entries.Some? then Listed(set e | e in entries.value) else Corrupt;
    case GC(olderThan) =>
      var n := s.GCSignedPayments(olderThan);
      a := Removed(n);
  }

  /** Any run on two fresh stores: both give the answers of the one ledger. */
  method RunBoth(ops: seq<Op>, codec: Codec) returns (inMemory: seq<Answer>, inBbolt: seq<Answer>)
    requires Inverse(codec)
    ensures inMemory == inBbolt == Answers(map[], ops)
  {
    hide Flatten, View, Sound, Pruned, Inverse, After, Answered;
    var m := new MemoryStore();
    var b := new BboltStore.Open(codec);
    inMemory, inBbolt := [], [];
    var i := 0;
    assert ops[0..] == ops;
    while i < |ops|
      invariant i <= |ops| && m.Valid() && b.Valid()
      invariant m.Contents() == b.Contents()
      invariant inMemory == inBbolt && Answers(map[], ops) == inMemory + Answers(m.Contents(), ops[i..])
    {
      assert ops[i..][1..] == ops[i + 1..] && ops[i..][0] == ops[i];
      var x := PerformInMemory(m, ops[i]);
      var y := PerformInBbolt(b, ops[i]);
      inMemory, inBbolt := inMemory + [x], inBbolt + [y];
      i := i + 1;
    }
    assert ops[i..] == [];
  }
}
