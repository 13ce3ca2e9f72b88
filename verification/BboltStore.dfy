/**
 The persistent store: one database of named buckets of byte strings. Each proxy has a bucket of
 its own beside the fixed ones. The serialisation of payments is any pair of inverse functions.
 */
module BboltStore {
  import opened Wrappers
  import opened Bytes
  import opened Ledger

  type Blob = seq<byte>
  type Bucket = map<Blob, Blob>
  type Database = map<string, Bucket>

  datatype Codec = Codec(encode: Payment -> Blob, decode: Blob -> Option<Payment>)

  ghost predicate Inverse(c: Codec) { forall p :: c.decode(c.encode(p)) == Some(p) }

  const PAYMENTS := "payments"
  const FIXED := {"root", "clients", PAYMENTS}
  const PREFIX := "payments/"

  predicate IsPaymentBucket(name: string) { PREFIX <= name }

  function PaymentBucketName(proxy: Proxy): (name: string)
    ensures IsPaymentBucket(name) && name !in FIXED
  {
    PAYMENTS + "/" + proxy
  }

  function ProxyOf(name: string): Proxy
    requires IsPaymentBucket(name)
  {
    name[|PREFIX|..]
  }

  /** Every bucket with the prefix belongs to exactly one proxy. */
  lemma BucketNamesAreExact(name: string, proxy: Proxy)
    requires IsPaymentBucket(name)
    ensures name == PaymentBucketName(proxy) <==> ProxyOf(name) == proxy
  {
    assert name == PREFIX + name[|PREFIX|..];
    assert PaymentBucketName(proxy)[|PREFIX|..] == proxy;
  }

  predicate Holds(db: Database, k: Key) {
    PaymentBucketName(k.proxy) in db && k.request in db[PaymentBucketName(k.proxy)]
  }

  /** The fixed buckets exist, and payment buckets hold payments under request ids. */
  ghost predicate Sound(db: Database, c: Codec) {
    && FIXED <= db.Keys
    && forall name, k :: name in db && IsPaymentBucket(name) && k in db[name]
        ==> |k| == 32 && c.decode(db[name][k]).Some?
  }

  ghost function KeysOf(db: Database): (ks: set<Key>)
    ensures forall k :: k in ks <==> Holds(db, k)
  {
    var ks := set name, k | name in db && IsPaymentBucket(name) && k in db[name] && |k| == 32 :: Key(ProxyOf(name), k);
    KeysAreHeld(db, ks);
    ks
  }

  lemma KeysAreHeld(db: Database, ks: set<Key>)
    requires ks ==
             set name, k | name in db && IsPaymentBucket(name) && k in db[name] && |k| == 32 :: Key(ProxyOf(name), k)
    ensures forall k :: k in ks <==> Holds(db, k)
  {
    forall key
      ensures key in ks <==> Holds(db, key)
    {
      if key in ks {
        var name, k :| name in db && IsPaymentBucket(name) && k in db[name] && |k| == 32
            && Key(ProxyOf(name), k) == key;
        BucketNamesAreExact(name, key.proxy);
      }
      if Holds(db, key) {
        var name, k := PaymentBucketName(key.proxy), key.request;
        BucketNamesAreExact(name, key.proxy);
        assert name in db && IsPaymentBucket(name) && k in db[name] && |k| == 32 && Key(ProxyOf(name), k) == key;
      }
    }
  }

  ghost function View(db: Database, c: Codec): (l: Ledger)
    requires Sound(db, c)
    ensures forall k :: k in l <==> Holds(db, k)
    ensures forall k :: Holds(db, k) ==> Some(l[k]) == c.decode(db[PaymentBucketName(k.proxy)][k.request])
  {
    map k | k in KeysOf(db) :: c.decode(db[PaymentBucketName(k.proxy)][k.request]).value
  }

  /** The blob under a key, and what it stands for. */
  ghost function Raw(db: Database, k: Key): Option<Blob> {
    if Holds(db, k) then Some(db[PaymentBucketName(k.proxy)][k.request]) else None
  }

  lemma ViewIsRaw(db: Database, c: Codec, k: Key)
    requires Sound(db, c)
    ensures At(View(db, c), k) == match Raw(db, k) case Some(blob) => c.decode(blob) case None => None
  {
  }

  function Stored(db: Database, name: string, request: Blob, blob: Blob): (r: Database)
    ensures forall other :: other != name ==> (other in r <==> other in db) && (other in db ==> r[other] == db[other])
  {
    var bucket: Bucket := if name in db then db[name] else map[];
    db[name := bucket[request := blob]]
  }

  function Dropped(db: Database, name: string, request: Blob): (r: Database)
    requires name in db
    ensures r.Keys == db.Keys && r[name] == db[name] - {request}
    ensures forall other :: other in db && other != name ==> r[other] == db[other]
  {
    db[name := db[name] - {request}]
  }

  lemma StoredIsSound(db: Database, c: Codec, name: string, request: RequestID, blob: Blob)
    requires Sound(db, c) && c.decode(blob).Some?
    ensures Sound(Stored(db, name, request, blob), c)
  {
  }

  lemma DroppedIsSound(db: Database, c: Codec, name: string, request: RequestID)
    requires Sound(db, c) && name in db
    ensures Sound(Dropped(db, name, request), c)
  {
  }

  lemma NamesDiffer(a: Proxy, b: Proxy)
    ensures PaymentBucketName(a) == PaymentBucketName(b) <==> a == b
  {
    BucketNamesAreExact(PaymentBucketName(a), b);
  }

  lemma RawStored(db: Database, key: Key, blob: Blob, k: Key)
    ensures Raw(Stored(db, PaymentBucketName(key.proxy), key.request, blob), k)
         == if k == key then Some(blob) else Raw(db, k)
  {
    hide PaymentBucketName;
    NamesDiffer(k.proxy, key.proxy);
  }

  lemma RawDropped(db: Database, key: Key, k: Key)
    requires PaymentBucketName(key.proxy) in db
    ensures Raw(Dropped(db, PaymentBucketName(key.proxy), key.request), k) == if k == key then None else Raw(db, k)
  {
    hide PaymentBucketName;
    NamesDiffer(k.proxy, key.proxy);
  }

  lemma ViewPut(db: Database, c: Codec, proxy: Proxy, request: RequestID, p: Payment)
    requires Sound(db, c) && Inverse(c)
    ensures var next := Stored(db, PaymentBucketName(proxy), request, c.encode(p));
            Sound(next, c) && View(next, c) == View(db, c)[Key(proxy, request) := p]
  {
    assert c.decode(c.encode(p)) == Some(p);
    hide PaymentBucketName, View, Sound, Raw, Stored;
    var next := Stored(db, PaymentBucketName(proxy), request, c.encode(p));
    StoredIsSound(db, c, PaymentBucketName(proxy), request, c.encode(p));
    forall k
      ensures At(View(next, c), k) == At(View(db, c)[Key(proxy, request) := p], k)
    {
      RawStored(db, Key(proxy, request), c.encode(p), k);
      ViewIsRaw(db, c, k);
      ViewIsRaw(next, c, k);
    }
    SameLedger(View(next, c), View(db, c)[Key(proxy, request) := p]);
  }

  lemma ViewRemove(db: Database, c: Codec, proxy: Proxy, request: RequestID)
    requires Sound(db, c) && PaymentBucketName(proxy) in db
    ensures var next := Dropped(db, PaymentBucketName(proxy), request);
            Sound(next, c) && View(next, c) == View(db, c) - {Key(proxy, request)}
  {
    hide PaymentBucketName, View, Sound, Raw, Dropped;
    var next := Dropped(db, PaymentBucketName(proxy), request);
    DroppedIsSound(db, c, PaymentBucketName(proxy), request);
    forall k
      ensures At(View(next, c), k) == At(View(db, c) - {Key(proxy, request)}, k)
    {
      RawDropped(db, Key(proxy, request), k);
      ViewIsRaw(db, c, k);
      ViewIsRaw(next, c, k);
    }
    SameLedger(View(next, c), View(db, c) - {Key(proxy, request)});
  }

  lemma NothingToRemove(db: Database, c: Codec, proxy: Proxy, request: RequestID)
    requires Sound(db, c) && PaymentBucketName(proxy) !in db
    ensures View(db, c) - {Key(proxy, request)} == View(db, c)
  {
    assert !Holds(db, Key(proxy, request));
  }

  /** Exactly the bucket's entries; nothing if some key is not a request id or some blob does not decode. */
  ghost predicate IsListing(db: Database, c: Codec, proxy: Proxy, out: Option<seq<Entry>>) {
    var bucket: Bucket := if PaymentBucketName(proxy) in db then db[PaymentBucketName(proxy)] else map[];
    && (out.None? <==> exists k :: k in bucket && (|k| != 32 || c.decode(bucket[k]).None?))
    && (out.Some? ==> forall e :: e in out.value <==>
                        e.request in bucket && c.decode(bucket[e.request]) == Some(e.payment))
  }

  /** In a sound database listing never fails, and lists the ledger's entries. */
  lemma ListedEntries(db: Database, c: Codec, proxy: Proxy, out: Option<seq<Entry>>)
    requires Sound(db, c) && IsListing(db, c, proxy, out)
    ensures out.Some? && Listed(set e | e in out.value) == Answered(View(db, c), List(proxy))
  {
    hide PaymentBucketName, IsPaymentBucket, Sound, View, Entries, At;
    var name := PaymentBucketName(proxy);
    if name in db {
      SoundBucket(db, c, name);
    }
    forall e
      ensures e in out.value <==> e in Entries(View(db, c), proxy)
    {
      EntryIs(View(db, c), proxy, e);
      ViewIsRaw(db, c, Key(proxy, e.request));
    }
  }

  class BboltStore {
    const codec: Codec
    var db: Database

    constructor Open(codec: Codec)
      requires Inverse(codec)
      ensures this.codec == codec && Valid() && Contents() == map[]
    {
      this.codec := codec;
      db := map["root" := map[], "clients" := map[], PAYMENTS := map[]];
      new;
      assert Sound(db, codec);
      assert Contents() == map[];
    }

    ghost predicate Valid()
      reads this
    {
      Inverse(codec) && Sound(db, codec)
    }

    ghost function Contents(): Ledger
      requires Valid()
      reads this
    {
      View(db, codec)
    }

    /** The buckets of the root and client snapshots stay as they were. */
    twostate predicate OthersUnchanged()
      reads this
    {
      forall name :: name in old(db) && !IsPaymentBucket(name) ==> name in db && db[name] == old(db)[name]
    }

    method PutSignedPayment(proxy: Proxy, request: RequestID, p: Option<Payment>)
      requires Valid()
      modifies this
      ensures Valid() && OthersUnchanged() && Contents() == After(old(Contents()), Put(proxy, request, p))
    {
      if p.None? {
        return;
      }
      hide Sound, View, Inverse, PaymentBucketName, IsPaymentBucket, Stored, Dropped;
      ViewPut(db, codec, proxy, request, p.value);
      var blob := codec.encode(p.value);
      db := Stored(db, PaymentBucketName(proxy), request, blob);
    }

    /** Whatever the bucket holds: a blob that does not decode is reported. */
    method GetSignedPayment(proxy: Proxy, request: RequestID) returns (a: Answer)
      ensures a == if !Holds(db, Key(proxy, request)) then NotFound
                   else
                     match codec.decode(db[PaymentBucketName(proxy)][request])
                     case Some(p) => Found(p)
                     case None => Corrupt
      ensures Valid() ==> a == Answered(Contents(), Get(proxy, request))
    {
      hide Sound;
      var name := PaymentBucketName(proxy);
      if name !in db {
        return NotFound;
      }
      var b := db[name];
      if request !in b {
        return NotFound;
      }
      var p := codec.decode(b[request]);
      assert Holds(db, Key(proxy, request));
      return if p.Some? then Found(p.value) else Corrupt;
    }

    method DeleteSignedPayment(proxy: Proxy, request: RequestID)
      requires Valid()
      modifies this
      ensures Valid() && OthersUnchanged() && Contents() == After(old(Contents()), Delete(proxy, request))
    {
      hide Sound, View, Inverse, PaymentBucketName, IsPaymentBucket, Dropped;
      var name := PaymentBucketName(proxy);
      if name !in db {
        NothingToRemove(db, codec, proxy, request);
        return;
      }
      ViewRemove(db, codec, proxy, request);
      db := Dropped(db, name, request);
    }

    method ListSignedPayments(proxy: Proxy) returns (out: Option<seq<Entry>>)
      ensures IsListing(db, codec, proxy, out)
      ensures Valid() ==> out.Some? && Listed(set e | e in out.value) == Answered(Contents(), List(proxy))
      ensures out.Some? ==> forall i, j :: 0 <= i < j < |out.value| ==> out.value[i].request != out.value[j].request
    {
      hide View, Sound, Entries;
      var name := PaymentBucketName(proxy);
      var bucket: Bucket := if name in db then db[name] else map[];
      out := ListBucket(bucket, codec);
      assert IsListing(db, codec, proxy, out);
      if Sound(db, codec) {
        ListedEntries(db, codec, proxy, out);
      }
    }

    method GCSignedPayments(olderThan: int) returns (removed: nat)
      requires Valid()
      modifies this
      ensures Valid() && OthersUnchanged() && Contents() == After(old(Contents()), GC(olderThan))
      ensures Removed(removed) == Answered(old(Contents()), GC(olderThan))
    {
      hide View, Sweeping, Expired, After, Answered, Sound, Inverse;
      ghost var all, gone := Contents(), {};
      removed := 0;
      var todo := db.Keys;
      BucketsOf(db, codec, olderThan);
      SweepNone(all, olderThan);
      while todo != {}
        invariant Valid() && OthersUnchanged() && todo <= db.Keys
        invariant Sweeping(all, Contents(), gone, removed, olderThan)
        invariant forall k :: k in Expired(Contents(), olderThan) ==> PaymentBucketName(k.proxy) in todo
        decreases |todo|
      {
        var name :| name in todo;
        if IsPaymentBucket(name) {
          ghost var now := Contents();
          var n;
          ghost var swept;
          n, swept := SweepBucket(name, olderThan);
          SweepMany(all, now, gone, removed, Contents(), swept, n, olderThan);
          removed, gone := removed + n, gone + swept;
        }
        todo := todo - {name};
      }
      SweepDone(all, Contents(), gone, removed, olderThan);
    }

    /** First notes the old keys, then deletes them. */
    method SweepBucket(name: string, olderThan: int) returns (removed: nat, ghost gone: set<Key>)
      requires Valid() && name in db && IsPaymentBucket(name)
      modifies this
      ensures Valid() && OnlyIn(name, old(db), db)
      ensures Sweeping(old(Contents()), Contents(), gone, removed, olderThan)
      ensures forall k :: k in Expired(Contents(), olderThan) ==> PaymentBucketName(k.proxy) != name
    {
      hide View, Sweeping, Expired, Inverse, Sound, PaymentBucketName, IsPaymentBucket;
      SoundBucket(db, codec, name);
      BucketNamesAreExact(name, ProxyOf(name));
      var toDelete := OldKeys(db[name], codec, olderThan);
      removed, gone := DeleteKeys(name, toDelete, olderThan);
      NoneExpired(db, codec, ProxyOf(name), olderThan);
    }

    method DeleteKeys(name: string, toDelete: seq<Blob>, olderThan: int) returns (removed: nat, ghost gone: set<Key>)
      requires Valid() && name in db && IsPaymentBucket(name)
      requires forall k :: k in toDelete ==> k in db[name] && Old(codec, db[name][k], olderThan)
      requires forall i, j :: 0 <= i < j < |toDelete| ==> toDelete[i] != toDelete[j]
      modifies this
      ensures Valid() && OnlyIn(name, old(db), db) && db[name] == old(db)[name] - (set k | k in toDelete)
      ensures Sweeping(old(Contents()), Contents(), gone, removed, olderThan)
    {
      hide View, Sweeping, Expired, Inverse, Sound, PaymentBucketName, IsPaymentBucket, OnlyIn, Old;
      ghost var bucket, all := db[name], Contents();
      removed, gone := 0, {};
      SweepNone(all, olderThan);
      OnlyInTrans(name, db, db, db);
      var i := 0;
      while i < |toDelete|
        invariant i <= |toDelete| && Valid() && name in db && OnlyIn(name, old(db), db)
        invariant db[name] == bucket - (set j | 0 <= j < i :: toDelete[j])
        invariant Sweeping(all, Contents(), gone, removed, olderThan)
      {
        var k := toDelete[i];
        assert k in toDelete && k in db[name] && db[name][k] == bucket[k];
        ghost var was := db;
        ghost var key := DeleteOne(name, k, olderThan, all, gone, removed);
        OnlyInTrans(name, old(db), was, db);
        removed, gone := removed + 1, gone + {key};
        i := i + 1;
      }
      assert (set j | 0 <= j < i :: toDelete[j]) == set k | k in toDelete;
    }

    method DeleteOne(name: string, k: Blob, olderThan: int, ghost all: Ledger, ghost gone: set<Key>,
        ghost removed: nat) returns (ghost key: Key)
      requires Valid() && name in db && IsPaymentBucket(name) && k in db[name] && Old(codec, db[name][k], olderThan)
      requires Sweeping(all, Contents(), gone, removed, olderThan)
      modifies this
      ensures Valid() && OnlyIn(name, old(db), db) && db[name] == old(db)[name] - {k}
      ensures Sweeping(all, Contents(), gone + {key}, removed + 1, olderThan)
    {
      hide View, Sweeping, Expired, Inverse, Sound, PaymentBucketName, IsPaymentBucket, Dropped, ProxyOf;
      SoundBucket(db, codec, name);
      key := Key(ProxyOf(name), k);
      BucketNamesAreExact(name, ProxyOf(name));
      InBucket(db, codec, ProxyOf(name), k);
      ViewRemove(db, codec, ProxyOf(name), k);
      SweepOne(all, Contents(), gone, removed, olderThan, key);
      db := Dropped(db, name, k);
    }
  }

  /** Two databases with the same buckets, alike but for the one named. */
  ghost predicate OnlyIn(name: string, a: Database, b: Database) {
    name in a && a.Keys == b.Keys && forall other :: other in a && other != name ==> a[other] == b[other]
  }

  lemma OnlyInTrans(name: string, a: Database, b: Database, c: Database)
    requires name in a
    ensures OnlyIn(name, a, a)
    ensures OnlyIn(name, a, b) && OnlyIn(name, b, c) ==> OnlyIn(name, a, c)
  {
  }

  lemma SoundBucket(db: Database, c: Codec, name: string)
    requires Sound(db, c) && name in db && IsPaymentBucket(name)
    ensures forall k :: k in db[name] ==> |k| == 32 && c.decode(db[name][k]).Some?
  {
  }

  method ListBucket(bucket: Bucket, c: Codec) returns (out: Option<seq<Entry>>)
    ensures out.None? <==> exists k :: k in bucket && (|k| != 32 || c.decode(bucket[k]).None?)
    ensures out.Some? ==> forall e :: e in out.value <==>
                            e.request in bucket && c.decode(bucket[e.request]) == Some(e.payment)
    ensures out.Some? ==> forall i, j :: 0 <= i < j < |out.value| ==> out.value[i].request != out.value[j].request
  {
    var todo, list := bucket.Keys, [];
    while todo != {}
      invariant todo <= bucket.Keys
      invariant forall k :: k in bucket.Keys - todo ==> |k| == 32 && c.decode(bucket[k]).Some?
      invariant forall e: Entry :: e in list <==>
                  e.request in bucket.Keys - todo && c.decode(bucket[e.request]) == Some(e.payment)
      invariant forall i, j :: 0 <= i < j < |list| ==> list[i].request != list[j].request
      decreases |todo|
    {
      var k :| k in todo;
      if |k| != 32 {
        return None;
      }
      var p := c.decode(bucket[k]);
      if p.None? {
        return None;
      }
      assert forall i :: 0 <= i < |list| ==> list[i] in list;
      list := list + [Entry(k, p.value)];
      todo := todo - {k};
    }
    return Some(list);
  }

  predicate Old(c: Codec, blob: Blob, olderThan: int) {
    var p := c.decode(blob); p.Some? && p.value.storedAt < olderThan
  }

  method OldKeys(bucket: Bucket, c: Codec, olderThan: int) returns (toDelete: seq<Blob>)
    ensures forall k :: k in toDelete <==> k in bucket && Old(c, bucket[k], olderThan)
    ensures forall i, j :: 0 <= i < j < |toDelete| ==> toDelete[i] != toDelete[j]
  {
    toDelete := [];
    var todo := bucket.Keys;
    while todo != {}
      invariant todo <= bucket.Keys
      invariant forall k :: k in toDelete <==> k in bucket.Keys - todo && Old(c, bucket[k], olderThan)
      invariant forall i, j :: 0 <= i < j < |toDelete| ==> toDelete[i] != toDelete[j]
      decreases |todo|
    {
      var k :| k in todo;
      todo := todo - {k};
      var p := c.decode(bucket[k]);
      if p.None? {
        continue;
      }
      if p.value.storedAt < olderThan {
        assert forall i :: 0 <= i < |toDelete| ==> toDelete[i] in toDelete;
        toDelete := toDelete + [k];
      }
    }
  }

  lemma BucketsOf(db: Database, c: Codec, olderThan: int)
    requires Sound(db, c)
    ensures forall k :: k in Expired(View(db, c), olderThan) ==> PaymentBucketName(k.proxy) in db
  {
    forall k | k in Expired(View(db, c), olderThan)
      ensures PaymentBucketName(k.proxy) in db
    {
      assert Holds(db, k);
    }
  }

  lemma InBucket(db: Database, c: Codec, proxy: Proxy, request: RequestID)
    requires Sound(db, c) && Holds(db, Key(proxy, request))
    ensures Key(proxy, request) in View(db, c)
    ensures Some(View(db, c)[Key(proxy, request)]) == c.decode(db[PaymentBucketName(proxy)][request])
  {
  }

  lemma NoneExpired(db: Database, c: Codec, proxy: Proxy, olderThan: int)
    requires Sound(db, c) && PaymentBucketName(proxy) in db
    requires forall k :: k in db[PaymentBucketName(proxy)] ==>
               !Old(c, db[PaymentBucketName(proxy)][k], olderThan)
    ensures forall k :: k in Expired(View(db, c), olderThan) ==> PaymentBucketName(k.proxy) != PaymentBucketName(proxy)
  {
    forall k | k in Expired(View(db, c), olderThan)
      ensures PaymentBucketName(k.proxy) != PaymentBucketName(proxy)
    {
      assert Holds(db, k);
    }
  }
}
