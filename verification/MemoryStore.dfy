/** The in-memory store: a map of proxies to nonempty maps of requests. */
module MemoryStore {
  import opened Wrappers
  import opened Ledger

  type Bucket = map<RequestID, Payment>
  type Nested = map<Proxy, Bucket>

  predicate Holds(m: Nested, k: Key) { k.proxy in m && k.request in m[k.proxy] }

  function KeysOf(m: Nested): (ks: set<Key>)
    ensures forall k :: k in ks <==> Holds(m, k)
  {
    set proxy, request | proxy in m && request in m[proxy] :: Key(proxy, request)
  }

  function Flatten(m: Nested): (l: Ledger)
    ensures forall k :: k in l <==> Holds(m, k)
    ensures forall k :: Holds(m, k) ==> l[k] == m[k.proxy][k.request]
  {
    map k | k in KeysOf(m) :: m[k.proxy][k.request]
  }

  /** No bucket is kept once it is empty. */
  predicate Pruned(m: Nested) { forall proxy :: proxy in m ==> m[proxy] != map[] }

  lemma FlattenPut(m: Nested, proxy: Proxy, request: RequestID, p: Payment)
    ensures var bucket: Bucket := if proxy in m then m[proxy] else map[];
            Flatten(m[proxy := bucket[request := p]]) == Flatten(m)[Key(proxy, request) := p]
  {
    var bucket: Bucket := if proxy in m then m[proxy] else map[];
    var n := m[proxy := bucket[request := p]];
    forall k
      ensures At(Flatten(n), k) == At(Flatten(m)[Key(proxy, request) := p], k)
    {
      assert Holds(n, k) <==> Holds(m, k) || k == Key(proxy, request);
    }
    SameLedger(Flatten(n), Flatten(m)[Key(proxy, request) := p]);
  }

  lemma FlattenRemove(m: Nested, proxy: Proxy, request: RequestID)
    requires proxy in m
    ensures Flatten(m[proxy := m[proxy] - {request}]) == Flatten(m) - {Key(proxy, request)}
  {
    var n := m[proxy := m[proxy] - {request}];
    forall k
      ensures Holds(n, k) <==> Holds(m, k) && k != Key(proxy, request)
    {
    }
  }

  lemma FlattenPrune(m: Nested, proxy: Proxy)
    requires proxy in m && m[proxy] == map[]
    ensures Flatten(m - {proxy}) == Flatten(m)
  {
    forall k
      ensures Holds(m - {proxy}, k) <==> Holds(m, k)
    {
    }
  }

  class MemoryStore {
    var payments: Nested

    constructor ()
      ensures payments == map[] && Valid() && Contents() == map[]
    {
      payments := map[];
    }

    ghost predicate Valid()
      reads this
    {
      Pruned(payments)
    }

    ghost function Contents(): Ledger
      reads this
    {
      Flatten(payments)
    }

    method PutSignedPayment(proxy: Proxy, request: RequestID, p: Option<Payment>)
      requires Valid()
      modifies this
      ensures Valid() && Contents() == After(old(Contents()), Put(proxy, request, p))
    {
      if p.None? {
        return;
      }
      FlattenPut(payments, proxy, request, p.value);
      var bucket: Bucket := if proxy in payments then payments[proxy] else map[];
      payments := payments[proxy := bucket[request := p.value]];
    }

    method GetSignedPayment(proxy: Proxy, request: RequestID) returns (a: Answer)
      ensures a == Answered(Contents(), Get(proxy, request))
    {
      if proxy !in payments {
        return NotFound;
      }
      var bucket := payments[proxy];
      if request !in bucket {
        return NotFound;
      }
      return Found(bucket[request]);
    }

    method DeleteSignedPayment(proxy: Proxy, request: RequestID)
      requires Valid()
      modifies this
      ensures Valid() && Contents() == After(old(Contents()), Delete(proxy, request))
    {
      if proxy !in payments {
        return;
      }
      FlattenRemove(payments, proxy, request);
      payments := payments[proxy := payments[proxy] - {request}];
      Prune(proxy);
    }

    /** Drops the bucket if nothing is left in it. */
    method Prune(proxy: Proxy)
      requires proxy in payments
      requires forall other :: other in payments && other != proxy ==> payments[other] != map[]
      modifies this
      ensures Valid() && Contents() == old(Contents())
      ensures old(payments.Keys) - {proxy} <= payments.Keys <= old(payments.Keys)
    {
      if |payments[proxy]| == 0 {
        FlattenPrune(payments, proxy);
        payments := payments - {proxy};
      }
    }

    /** In no particular order, but each entry once. */
    method ListSignedPayments(proxy: Proxy) returns (out: seq<Entry>)
      ensures Listed(set e | e in out) == Answered(Contents(), List(proxy))
      ensures forall i, j :: 0 <= i < j < |out| ==> out[i].request != out[j].request
    {
      out := [];
      if proxy !in payments {
        assert Entries(Contents(), proxy) == {};
        return;
      }
      var bucket := payments[proxy];
      var todo := bucket.Keys;
      while todo != {}
        invariant todo <= bucket.Keys
        invariant forall e :: e in out <==> e.request in bucket.Keys - todo && e.payment == bucket[e.request]
        invariant forall i, j :: 0 <= i < j < |out| ==> out[i].request != out[j].request
        decreases |todo|
      {
        var request :| request in todo;
        assert forall i :: 0 <= i < |out| ==> out[i] in out;
        out := out + [Entry(request, bucket[request])];
        todo := todo - {request};
      }
      forall e
        ensures e in out <==> e in Entries(Contents(), proxy)
      {
        var k := Key(proxy, e.request);
        assert k in Contents() <==> e.request in bucket;
        assert e in Entries(Contents(), proxy) <==> k in Contents() && Contents()[k] == e.payment;
      }
    }

    /** Deletes the bucket's old entries one by one. */
    method SweepBucket(proxy: Proxy, olderThan: int) returns (removed: nat, ghost gone: set<Key>)
      requires proxy in payments
      modifies this
      ensures payments.Keys == old(payments.Keys)
      ensures forall other :: other in payments && other != proxy ==> payments[other] == old(payments)[other]
      ensures Sweeping(old(Contents()), Contents(), gone, removed, olderThan)
      ensures forall k :: k in Expired(Contents(), olderThan) ==> k.proxy != proxy
    {
      hide Flatten, Sweeping, Expired;
      var bucket := payments[proxy];
      ghost var all := Contents();
      var todo := bucket.Keys;
      removed, gone := 0, {};
      SweepNone(all, olderThan);
      while todo != {}
        invariant todo <= bucket.Keys && payments.Keys == old(payments.Keys) && proxy in payments
        invariant forall other :: other in payments && other != proxy ==> payments[other] == old(payments)[other]
        invariant forall request :: request in todo ==>
                    request in payments[proxy] && payments[proxy][request] == bucket[request]
        invariant forall request :: request in payments[proxy] && request !in todo ==>
                    payments[proxy][request].storedAt >= olderThan
        invariant Sweeping(all, Contents(), gone, removed, olderThan)
        decreases |todo|
      {
        var request :| request in todo;
        if bucket[request].storedAt < olderThan {
          InBucket(payments, proxy, request);
          FlattenRemove(payments, proxy, request);
          SweepOne(all, Contents(), gone, removed, olderThan, Key(proxy, request));
          payments := payments[proxy := payments[proxy] - {request}];
          removed, gone := removed + 1, gone + {Key(proxy, request)};
        }
        todo := todo - {request};
      }
      NoneExpired(payments, proxy, olderThan);
    }

    method GCSignedPayments(olderThan: int) returns (removed: nat)
      requires Valid()
      modifies this
      ensures Valid() && Contents() == After(old(Contents()), GC(olderThan))
      ensures Removed(removed) == Answered(old(Contents()), GC(olderThan))
    {
      hide Flatten, Sweeping, Expired, After, Answered;
      ghost var all, gone := Contents(), {};
      removed := 0;
      var todo := payments.Keys;
      ProxiesOf(payments, olderThan);
      SweepNone(all, olderThan);
      while todo != {}
        invariant Valid() && todo <= payments.Keys
        invariant Sweeping(all, Contents(), gone, removed, olderThan)
        invariant forall k :: k in Expired(Contents(), olderThan) ==> k.proxy in todo
        decreases |todo|
      {
        var proxy :| proxy in todo;
        ghost var now := Contents();
        var n;
        ghost var swept;
        n, swept := SweepBucket(proxy, olderThan);
        SweepMany(all, now, gone, removed, Contents(), swept, n, olderThan);
        Prune(proxy);
        removed, gone := removed + n, gone + swept;
        todo := todo - {proxy};
      }
      SweepDone(all, Contents(), gone, removed, olderThan);
    }
  }

  lemma InBucket(m: Nested, proxy: Proxy, request: RequestID)
    requires proxy in m && request in m[proxy]
    ensures Key(proxy, request) in Flatten(m) && Flatten(m)[Key(proxy, request)] == m[proxy][request]
  {
    assert Holds(m, Key(proxy, request));
  }

  lemma NoneExpired(m: Nested, proxy: Proxy, olderThan: int)
    requires proxy in m && forall request :: request in m[proxy] ==> m[proxy][request].storedAt >= olderThan
    ensures forall k :: k in Expired(Flatten(m), olderThan) ==> k.proxy != proxy
  {
    forall k | k in Expired(Flatten(m), olderThan)
      ensures k.proxy != proxy
    {
      assert Holds(m, k);
    }
  }

  lemma ProxiesOf(m: Nested, olderThan: int)
    ensures forall k :: k in Expired(Flatten(m), olderThan) ==> k.proxy in m
  {
    forall k | k in Expired(Flatten(m), olderThan)
      ensures k.proxy in m
    {
      assert Holds(m, k);
    }
  }
}
