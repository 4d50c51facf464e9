/**
  The namespaced cache. Its database is a bucket for each namespace, and a bucket keeps its keys in byte
  order; values are stored as they are, without their encoding.
 */
module Cache {
  import opened Common

  type Bytes = seq<byte>

  datatype Entry = Entry(key: Bytes, value: Bytes)

  type Bucket = seq<Entry>

  type Buckets = map<Bytes, Bucket>

  // ----- Byte order -----

  predicate Less(a: Bytes, b: Bytes) {
    if b == [] then false
    else if a == [] then true
    else a[0] < b[0] || (a[0] == b[0] && Less(a[1..], b[1..]))
  }

  lemma {:induction false} LessIsTotal(a: Bytes, b: Bytes)
    ensures Less(a, b) || a == b || Less(b, a)
  {
    if a != [] && b != [] && a[0] == b[0] {
      LessIsTotal(a[1..], b[1..]);
      assert a == [a[0]] + a[1..] && b == [b[0]] + b[1..];
    }
  }

  lemma {:induction false} LessIsTransitive(a: Bytes, b: Bytes, c: Bytes)
    requires Less(a, b) && Less(b, c)
    ensures Less(a, c)
  {
    if a != [] && a[0] == b[0] && b[0] == c[0] {
      LessIsTransitive(a[1..], b[1..], c[1..]);
    }
  }

  lemma {:induction false} LessIsIrreflexive(a: Bytes)
    ensures !Less(a, a)
  {
    if a != [] {
      LessIsIrreflexive(a[1..]);
    }
  }

  // ----- Buckets -----

  predicate Sorted(b: Bucket) {
    forall i, j :: 0 <= i < j < |b| ==> Less(b[i].key, b[j].key)
  }

  /** Where a cursor's seek stops: the first key that is not less than the given one. */
  function SeekFrom(b: Bucket, key: Bytes, i: nat): (k: nat)
    requires i <= |b|
    ensures i <= k <= |b| && (k < |b| ==> !Less(b[k].key, key))
    ensures forall j :: i <= j < k ==> Less(b[j].key, key)
    decreases |b| - i
  {
    if i == |b| || !Less(b[i].key, key) then i else SeekFrom(b, key, i + 1)
  }

  function Seek(b: Bucket, key: Bytes): (k: nat)
    ensures k <= |b| && (k < |b| ==> !Less(b[k].key, key))
    ensures forall j :: 0 <= j < k ==> Less(b[j].key, key)
  {
    SeekFrom(b, key, 0)
  }

  predicate Hit(b: Bucket, key: Bytes) {
    Seek(b, key) < |b| && b[Seek(b, key)].key == key
  }

  function Inserted(b: Bucket, key: Bytes, value: Bytes): Bucket {
    var i := Seek(b, key);
    if Hit(b, key) then b[i := Entry(key, value)] else b[..i] + [Entry(key, value)] + b[i..]
  }

  function Removed(b: Bucket, key: Bytes): Bucket {
    var i := Seek(b, key);
    if Hit(b, key) then b[..i] + b[i + 1..] else b
  }

  function BucketOf(bs: Buckets, namespace: Bytes): Bucket {
    if namespace in bs then bs[namespace] else []
  }

  predicate AllSorted(bs: Buckets) {
    forall namespace :: namespace in bs ==> Sorted(bs[namespace])
  }

  /** What a seek that must hit the key finds. */
  function Found(b: Bucket, key: Bytes): Option<Bytes> {
    if Hit(b, key) then Some(b[Seek(b, key)].value) else None
  }

  function Lookup(bs: Buckets, namespace: Bytes, key: Bytes): Option<Bytes> {
    Found(BucketOf(bs, namespace), key)
  }

  // ----- The storage and its caches -----

  class Storage {
    var buckets: Buckets

    constructor ()
      ensures buckets == map[]
    {
      buckets := map[];
    }

    /** Deletes every namespace, if the database opens. */
    method Clear(opens: bool) returns (ok: bool)
      modifies this
      ensures ok == opens && buckets == if opens then map[] else old(buckets)
    {
      if opens {
        buckets := map[];
      }
      ok := opens;
    }
  }

  class Cache {
    const storage: Storage
    const namespace: Bytes

    constructor (storage: Storage, namespace: Bytes)
      ensures this.storage == storage && this.namespace == namespace
    {
      this.storage, this.namespace := storage, namespace;
    }

    method Put(key: Bytes, value: Bytes, opens: bool) returns (ok: bool)
      modifies storage
      ensures ok == opens
      ensures storage.buckets ==
        if opens then PutInto(old(storage.buckets), namespace, key, value) else old(storage.buckets)
    {
      if !opens {
        return false;
      }
      if namespace !in storage.buckets {
        storage.buckets := storage.buckets[namespace := []];
      }
      storage.buckets := storage.buckets[namespace := Inserted(storage.buckets[namespace], key, value)];
      ok := true;
    }

    /** No value is the error that there is none; no result is a database that does not open. */
    method Get(key: Bytes, opens: bool) returns (r: Option<Option<Bytes>>)
      ensures r == if opens then Some(Lookup(storage.buckets, namespace, key)) else None
    {
      if !opens {
        return None;
      }
      if namespace !in storage.buckets {
        return Some(None);
      }
      var b := storage.buckets[namespace];
      var i := Seek(b, key);
      if i < |b| && b[i].key == key {
        return Some(Some(b[i].value));
      }
      r := Some(None);
    }

    method Delete(key: Bytes, opens: bool) returns (ok: bool)
      modifies storage
      ensures ok == opens
      ensures storage.buckets ==
        if opens then DeleteFrom(old(storage.buckets), namespace, key) else old(storage.buckets)
    {
      if !opens {
        return false;
      }
      if namespace in storage.buckets {
        storage.buckets := storage.buckets[namespace := Removed(storage.buckets[namespace], key)];
      }
      ok := true;
    }
  }

  function PutInto(bs: Buckets, namespace: Bytes, key: Bytes, value: Bytes): Buckets {
    bs[namespace := Inserted(BucketOf(bs, namespace), key, value)]
  }

  function DeleteFrom(bs: Buckets, namespace: Bytes, key: Bytes): Buckets {
    if namespace in bs then bs[namespace := Removed(bs[namespace], key)] else bs
  }

  // ----- A cache is a map for each namespace -----

  /** In a sorted bucket a seek hits exactly the keys the bucket holds. */
  lemma SeekFinds(b: Bucket, key: Bytes, i: nat)
    requires Sorted(b) && i < |b| && b[i].key == key
    ensures Seek(b, key) == i && Found(b, key) == Some(b[i].value)
  {
    LessIsIrreflexive(key);
    assert Seek(b, key) <= i;
  }

  lemma SeekMisses(b: Bucket, key: Bytes)
    requires forall i :: 0 <= i < |b| ==> b[i].key != key
    ensures Found(b, key) == None
  {
  }

  /** What is right of a seek that misses is greater. */
  lemma RightOfSeek(b: Bucket, key: Bytes, j: nat)
    requires Sorted(b) && Seek(b, key) <= j < |b| && !Hit(b, key)
    ensures Less(key, b[j].key)
  {
    var i := Seek(b, key);
    LessIsTotal(b[i].key, key);
    if i < j {
      LessIsTransitive(key, b[i].key, b[j].key);
    }
  }

  lemma InsertedIsSorted(b: Bucket, key: Bytes, value: Bytes)
    requires Sorted(b)
    ensures Sorted(Inserted(b, key, value))
  {
    if !Hit(b, key) {
      forall j: nat | Seek(b, key) <= j < |b| ensures Less(key, b[j].key) {
        RightOfSeek(b, key, j);
      }
    }
  }

  lemma RemovedIsSorted(b: Bucket, key: Bytes)
    requires Sorted(b)
    ensures Sorted(Removed(b, key))
  {
  }

  /** The place of an entry after another key was inserted. */
  lemma InsertedKeeps(b: Bucket, key: Bytes, value: Bytes, other: Bytes)
    requires Sorted(b) && other != key
    ensures Found(Inserted(b, key, value), other) == Found(b, other)
  {
    InsertedIsSorted(b, key, value);
    var c, i := Inserted(b, key, value), Seek(b, key);
    if j: nat :| j < |b| && b[j].key == other {
      SeekFinds(b, other, j);
      SeekFinds(c, other, if Hit(b, key) || j < i then j else j + 1);
    } else {
      SeekMisses(b, other);
      SeekMisses(c, other);
    }
  }

  lemma InsertedFinds(b: Bucket, key: Bytes, value: Bytes)
    requires Sorted(b)
    ensures Found(Inserted(b, key, value), key) == Some(value)
  {
    InsertedIsSorted(b, key, value);
    SeekFinds(Inserted(b, key, value), key, Seek(b, key));
  }

  lemma RemovedKeeps(b: Bucket, key: Bytes, other: Bytes)
    requires Sorted(b) && other != key
    ensures Found(Removed(b, key), other) == Found(b, other)
  {
    RemovedIsSorted(b, key);
    var c, i := Removed(b, key), Seek(b, key);
    if Hit(b, key) {
      if j: nat :| j < |b| && b[j].key == other {
        SeekFinds(b, other, j);
        SeekFinds(c, other, if j < i then j else j - 1);
      } else {
        SeekMisses(b, other);
        SeekMisses(c, other);
      }
    }
  }

  lemma RemovedMisses(b: Bucket, key: Bytes)
    requires Sorted(b)
    ensures Found(Removed(b, key), key) == None
  {
  }

  /** A put changes what its namespace and key give, and nothing else. */
  lemma PutIsUpdate(bs: Buckets, namespace: Bytes, key: Bytes, value: Bytes, n: Bytes, k: Bytes)
    requires AllSorted(bs)
    ensures AllSorted(PutInto(bs, namespace, key, value))
    ensures Lookup(PutInto(bs, namespace, key, value), n, k) ==
            if n == namespace && k == key then Some(value) else Lookup(bs, n, k)
  {
    var b := BucketOf(bs, namespace);
    InsertedIsSorted(b, key, value);
    if n == namespace && k == key {
      InsertedFinds(b, key, value);
    } else if n == namespace {
      InsertedKeeps(b, key, value, k);
    }
  }

  /** A delete takes away what its namespace and key give, and nothing else. */
  lemma DeleteIsRemoval(bs: Buckets, namespace: Bytes, key: Bytes, n: Bytes, k: Bytes)
    requires AllSorted(bs)
    ensures AllSorted(DeleteFrom(bs, namespace, key))
    ensures Lookup(DeleteFrom(bs, namespace, key), n, k) ==
            if n == namespace && k == key then None else Lookup(bs, n, k)
  {
    if namespace in bs {
      RemovedIsSorted(bs[namespace], key);
      if n == namespace && k == key {
        RemovedMisses(bs[namespace], key);
      } else if n == namespace {
        RemovedKeeps(bs[namespace], key, k);
      }
    } else {
      SeekMisses([], key);
    }
  }

  // ----- Runs -----

  datatype Op = Put(namespace: Bytes, key: Bytes, value: Bytes) | Delete(namespace: Bytes, key: Bytes) | Clear

  function Applied(bs: Buckets, op: Op): Buckets {
    match op
    case Put(n, k, v) => PutInto(bs, n, k, v)
    case Delete(n, k) => DeleteFrom(bs, n, k)
    case Clear => map[]
  }

  /** The storage after a run of operations. */
  function Stored(bs: Buckets, ops: seq<Op>): Buckets {
    if ops == [] then bs else Applied(Stored(bs, ops[..|ops| - 1]), ops[|ops| - 1])
  }

  /** The operation on a plain map. */
  function Noted(table: map<(Bytes, Bytes), Bytes>, op: Op): map<(Bytes, Bytes), Bytes> {
    match op
    case Put(n, k, v) => table[(n, k) := v]
    case Delete(n, k) => table - {(n, k)}
    case Clear => map[]
  }

  function Table(ops: seq<Op>): map<(Bytes, Bytes), Bytes> {
    if ops == [] then map[] else Noted(Table(ops[..|ops| - 1]), ops[|ops| - 1])
  }

  function Entered(table: map<(Bytes, Bytes), Bytes>, n: Bytes, k: Bytes): Option<Bytes> {
    if (n, k) in table then Some(table[(n, k)]) else None
  }

  /** After any run of puts, deletes and clears over any namespaces, a lookup gives what a plain map gives. */
  lemma {:induction false} CacheIsMap(ops: seq<Op>, n: Bytes, k: Bytes)
    ensures AllSorted(Stored(map[], ops)) && Lookup(Stored(map[], ops), n, k) == Entered(Table(ops), n, k)
  {
    if ops != [] {
      var before := Stored(map[], ops[..|ops| - 1]);
      CacheIsMap(ops[..|ops| - 1], n, k);
      match ops[|ops| - 1]
      case Put(n', k', v) => PutIsUpdate(before, n', k', v, n, k);
      case Delete(n', k') => DeleteIsRemoval(before, n', k', n, k);
      case Clear =>
    }
  }

  predicate Spares(op: Op, n: Bytes, k: Bytes) {
    match op
    case Put(n', k', _) => n' != n || k' != k
    case Delete(n', k') => n' != n || k' != k
    case Clear => false
  }

  /** Operations on other keys or namespaces leave a value alone. */
  lemma {:induction false} SparedIsKept(bs: Buckets, ops: seq<Op>, n: Bytes, k: Bytes)
    requires AllSorted(bs) && forall i :: 0 <= i < |ops| ==> Spares(ops[i], n, k)
    ensures AllSorted(Stored(bs, ops)) && Lookup(Stored(bs, ops), n, k) == Lookup(bs, n, k)
  {
    if ops != [] {
      var before := Stored(bs, ops[..|ops| - 1]);
      SparedIsKept(bs, ops[..|ops| - 1], n, k);
      assert Spares(ops[|ops| - 1], n, k);
      match ops[|ops| - 1]
      case Put(n', k', v) => PutIsUpdate(before, n', k', v, n, k);
      case Delete(n', k') => DeleteIsRemoval(before, n', k', n, k);
    }
  }
}
