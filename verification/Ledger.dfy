/** The signed-payment ledger both stores stand for: one map from proxy and request to payment. */
module Ledger {
  import opened Wrappers
  import opened Bytes

  type Proxy = string
  type RequestID = s: seq<byte> | |s| == 32 witness seq(32, _ => 0)

  datatype Payment = Payment(blob: seq<byte>, storedAt: int)
  datatype Key = Key(proxy: Proxy, request: RequestID)
  datatype Entry = Entry(request: RequestID, payment: Payment)
  type Ledger = map<Key, Payment>

  /** The operations of the store interface; a missing payment is Go's nil pointer. */
  datatype Op =
    | Put(proxy: Proxy, request: RequestID, payment: Option<Payment>)
    | Get(proxy: Proxy, request: RequestID)
    | Delete(proxy: Proxy, request: RequestID)
    | List(proxy: Proxy)
    | GC(olderThan: int)

  datatype Answer = Done | NotFound | Corrupt | Found(payment: Payment) | Listed(entries: set<Entry>)
      | Removed(count: nat)

  function Expired(l: Ledger, olderThan: int): set<Key> { set k | k in l && l[k].storedAt < olderThan }

  function Entries(l: Ledger, proxy: Proxy): set<Entry> {
    set k | k in l && k.proxy == proxy :: Entry(k.request, l[k])
  }

  function After(l: Ledger, op: Op): Ledger {
    match op
    case Put(proxy, request, Some(p)) => l[Key(proxy, request) := p]
    case Delete(proxy, request) => l - {Key(proxy, request)}
    case GC(olderThan) => l - Expired(l, olderThan)
    case _ => l
  }

  function Answered(l: Ledger, op: Op): Answer {
    match op
    case Get(proxy, request) => if Key(proxy, request) in l then Found(l[Key(proxy, request)]) else NotFound
    case List(proxy) => Listed(Entries(l, proxy))
    case GC(olderThan) => Removed(|Expired(l, olderThan)|)
    case _ => Done
  }

  function AfterAll(l: Ledger, ops: seq<Op>): Ledger
    decreases |ops|
  {
    if ops == [] then l else AfterAll(After(l, ops[0]), ops[1..])
  }

  function Answers(l: Ledger, ops: seq<Op>): seq<Answer>
    decreases |ops|
  {
    if ops == [] then [] else [Answered(l, ops[0])] + Answers(After(l, ops[0]), ops[1..])
  }

  // ---- what a run means for one key -------------------------------------------------------------

  /** The history of one key alone: the last put stands until a delete of it or a collection that finds it too old. */
  function Fate(now: Option<Payment>, key: Key, ops: seq<Op>): Option<Payment>
    decreases |ops|
  {
    if ops == [] then now
    else
      var next := match ops[0]
        case Put(proxy, request, Some(p)) => if Key(proxy, request) == key then Some(p) else now
        case Delete(proxy, request) => if Key(proxy, request) == key then None else now
        case GC(olderThan) => if now.Some? && now.value.storedAt < olderThan then None else now
        case _ => now;
      Fate(next, key, ops[1..])
  }

  function At(l: Ledger, key: Key): Option<Payment> { if key in l then Some(l[key]) else None }

  lemma SameLedger(a: Ledger, b: Ledger)
    requires forall k :: At(a, k) == At(b, k)
    ensures a == b
  {
    assert forall k :: k in a <==> At(a, k).Some?;
    assert forall k :: k in b <==> At(b, k).Some?;
    forall k | k in a
      ensures a[k] == b[k]
    {
      assert At(a, k) == Some(a[k]) && At(b, k) == Some(b[k]);
    }
  }

  lemma EntryIs(l: Ledger, proxy: Proxy, e: Entry)
    ensures e in Entries(l, proxy) <==> At(l, Key(proxy, e.request)) == Some(e.payment)
  {
    var k := Key(proxy, e.request);
    assert k in l ==> Entry(k.request, l[k]) in Entries(l, proxy);
  }

  /** Keys do not influence each other, over every run. */
  lemma {:induction false} EachKeyHasItsOwnFate(l: Ledger, key: Key, ops: seq<Op>)
    ensures At(AfterAll(l, ops), key) == Fate(At(l, key), key, ops)
    decreases |ops|
  {
    if ops != [] {
      EachKeyHasItsOwnFate(After(l, ops[0]), key, ops[1..]);
    }
  }

  /** After a collection nothing old is left, everything else is kept, and a second one finds nothing. */
  lemma CollectionIsExact(l: Ledger, olderThan: int)
    ensures var rest := After(l, GC(olderThan));
            && (forall k :: k in rest <==> k in l && l[k].storedAt >= olderThan)
            && (forall k :: k in rest ==> rest[k] == l[k])
            && Answered(rest, GC(olderThan)) == Removed(0)
            && |rest| + |Expired(l, olderThan)| == |l|
  {
    var gone, rest := Expired(l, olderThan), After(l, GC(olderThan));
    assert rest.Keys + gone == l.Keys && rest.Keys !! gone;
    assert |l| == |l.Keys| && |rest| == |rest.Keys|;
    assert Expired(rest, olderThan) == {};
  }

  // ---- collecting piece by piece -------------------------------------------------------------------

  /** `now` is `all` without `removed` many old entries, those in `gone`. */
  ghost predicate Sweeping(all: Ledger, now: Ledger, gone: set<Key>, removed: nat, olderThan: int) {
    gone <= Expired(all, olderThan) && removed == |gone| && now == all - gone
  }

  lemma SweepNone(all: Ledger, olderThan: int)
    ensures Sweeping(all, all, {}, 0, olderThan)
  {
  }

  lemma SweepOne(all: Ledger, now: Ledger, gone: set<Key>, removed: nat, olderThan: int, k: Key)
    requires Sweeping(all, now, gone, removed, olderThan)
    requires k in now && now[k].storedAt < olderThan
    ensures Sweeping(all, now - {k}, gone + {k}, removed + 1, olderThan)
  {
  }

  lemma SweepMany(all: Ledger, now: Ledger, gone: set<Key>, removed: nat, next: Ledger, more: set<Key>, n: nat,
      olderThan: int)
    requires Sweeping(all, now, gone, removed, olderThan) && Sweeping(now, next, more, n, olderThan)
    ensures Sweeping(all, next, gone + more, removed + n, olderThan)
    ensures Expired(next, olderThan) <= Expired(now, olderThan)
  {
    assert gone !! more;
  }

  lemma SweepDone(all: Ledger, now: Ledger, gone: set<Key>, removed: nat, olderThan: int)
    requires Sweeping(all, now, gone, removed, olderThan) && Expired(now, olderThan) == {}
    ensures now == After(all, GC(olderThan)) && Removed(removed) == Answered(all, GC(olderThan))
  {
    forall k | k in Expired(all, olderThan)
      ensures k in gone
    {
      assert k !in gone ==> k in Expired(now, olderThan);
    }
    assert gone == Expired(all, olderThan);
  }
}
