/**
  Checksums of directories, saved in a cache to see later whether anything changed. A checksum is identified
  with the bytes it was computed from.
 */
module Dirchange {
  import opened Common
  import opened Cache

  /** One step of a walk: a directory, a file that reads or does not, or an error of the walk itself. */
  datatype Visit = Directory | File(content: Option<Bytes>) | Broken

  /** A path: absent, not to be looked at, or walked. */
  datatype Place = Absent | Unreadable | Walked(visits: seq<Visit>)

  datatype Error = NoFile | Failure

  predicate VisitFails(v: Visit) {
    v.Broken? || (v.File? && v.content.None?)
  }

  predicate PlaceFails(p: Place) {
    p.Unreadable? || (p.Walked? && exists i :: 0 <= i < |p.visits| && VisitFails(p.visits[i]))
  }

  predicate Fails(places: seq<Place>) {
    exists i :: 0 <= i < |places| && PlaceFails(places[i])
  }

  predicate HasFile(p: Place) {
    p.Walked? && exists i :: 0 <= i < |p.visits| && p.visits[i].File?
  }

  predicate HasFiles(places: seq<Place>) {
    exists i :: 0 <= i < |places| && HasFile(places[i])
  }

  function VisitBytes(v: Visit): Bytes {
    if v.File? && v.content.Some? then v.content.value else []
  }

  /** The contents of the first n files and directories of a walk, one after the other. */
  function WalkBytes(visits: seq<Visit>, n: nat): Bytes
    requires n <= |visits|
  {
    if n == 0 then []
    else
      WalkBytes(visits, n - 1) + VisitBytes(visits[n - 1])
  }

  function PlaceBytes(p: Place): Bytes {
    if p.Walked? then WalkBytes(p.visits, |p.visits|) else []
  }

  function AllBytes(places: seq<Place>, n: nat): Bytes
    requires n <= |places|
  {
    if n == 0 then [] else AllBytes(places, n - 1) + PlaceBytes(places[n - 1])
  }

  function Contents(places: seq<Place>): Bytes {
    AllBytes(places, |places|)
  }

  /** The bytes a checksum is computed from, or why there is none. */
  function Checksum(places: seq<Place>): Result<Bytes, Error> {
    if Fails(places) then Err(Failure) else if !HasFiles(places) then Err(NoFile) else Ok(Contents(places))
  }

  method Walk(visits: seq<Visit>, hash: Bytes, noFile: bool) returns (ok: bool, hash': Bytes, noFile': bool)
    ensures ok <==> forall i :: 0 <= i < |visits| ==> !VisitFails(visits[i])
    ensures ok ==> hash' == hash + WalkBytes(visits, |visits|)
    ensures ok ==> (noFile' <==> noFile && forall i :: 0 <= i < |visits| ==> !visits[i].File?)
  {
    hash', noFile' := hash, noFile;
    for i := 0 to |visits|
      invariant forall k :: 0 <= k < i ==> !VisitFails(visits[k])
      invariant hash' == hash + WalkBytes(visits, i)
      invariant noFile' <==> noFile && forall k :: 0 <= k < i ==> !visits[k].File?
    {
      match visits[i] {
        case Broken =>
          assert VisitFails(visits[i]);
          return false, hash', noFile';
        case Directory =>
        case File(content) =>
          noFile' := false;
          if content.None? {
            assert VisitFails(visits[i]);
            return false, hash', noFile';
          }
          hash' := hash' + content.value;
      }
    }
    ok := true;
  }

  method ChecksumFromPaths(places: seq<Place>) returns (r: Result<Bytes, Error>)
    ensures r == Checksum(places)
  {
    var hash: Bytes, noFile := [], true;
    for i := 0 to |places|
      invariant hash == AllBytes(places, i)
      invariant forall k :: 0 <= k < i ==> !PlaceFails(places[k])
      invariant noFile <==> forall k :: 0 <= k < i ==> !HasFile(places[k])
    {
      match places[i] {
        case Absent =>
        case Unreadable =>
          assert PlaceFails(places[i]);
          return Err(Failure);
        case Walked(visits) =>
          var ok;
          ok, hash, noFile := Walk(visits, hash, noFile);
          if !ok {
            assert PlaceFails(places[i]);
            return Err(Failure);
          }
      }
    }
    if noFile {
      return Err(NoFile);
    }
    r := Ok(hash);
  }

  method SaveDirChecksum(cache: Cache, key: Bytes, places: seq<Place>, opens: bool) returns (ok: bool)
    modifies cache.storage
    ensures ok <==> Checksum(places).Ok? && opens
    ensures cache.storage.buckets ==
      if ok then PutInto(old(cache.storage.buckets), cache.namespace, key, Checksum(places).value)
      else old(cache.storage.buckets)
  {
    var checksum := ChecksumFromPaths(places);
    if checksum.Err? {
      return false;
    }
    ok := cache.Put(key, checksum.value, opens);
  }

  /** Whether anything changed since the checksum was saved; none when that cannot be told. */
  function Changed(saved: Option<Bytes>, places: seq<Place>): Option<bool> {
    if saved.None? then Some(true)
    else
      var checksum := Checksum(places);
      if checksum == Err(NoFile) then Some(true)
      else if checksum.Err? then None
      else Some(checksum.value != saved.value)
  }

  method HasDirChecksumChanged(cache: Cache, key: Bytes, places: seq<Place>, opens: bool) returns (r: Option<bool>)
    ensures r == if opens then Changed(Lookup(cache.storage.buckets, cache.namespace, key), places) else None
  {
    var saved := cache.Get(key, opens);
    if saved.None? {
      return None;
    }
    if saved.value.None? {
      return Some(true);
    }
    var checksum := ChecksumFromPaths(places);
    if checksum == Err(NoFile) {
      return Some(true);
    }
    if checksum.Err? {
      return None;
    }
    r := Some(checksum.value != saved.value.value);
  }

  lemma SavedIsFound(bs: Buckets, namespace: Bytes, key: Bytes, value: Bytes, ops: seq<Op>)
    requires AllSorted(bs) && forall i :: 0 <= i < |ops| ==> Spares(ops[i], namespace, key)
    ensures Lookup(Stored(PutInto(bs, namespace, key, value), ops), namespace, key) == Some(value)
  {
    PutIsUpdate(bs, namespace, key, value, namespace, key);
    SparedIsKept(PutInto(bs, namespace, key, value), ops, namespace, key);
  }

  lemma ChangedFrom(saved: Option<Bytes>, before: seq<Place>, now: seq<Place>)
    requires Checksum(before).Ok? && saved == Some(Checksum(before).value)
    ensures Changed(saved, now) ==
            if Fails(now) then None else Some(!HasFiles(now) || Contents(now) != Contents(before))
    ensures Changed(saved, before) == Some(false)
  {
  }

  /** After a save, and whatever is done to other keys and namespaces, the check says changed just when the files
      are gone or their contents, one after the other, are not the bytes they were. */
  lemma ChangedMeans(bs: Buckets, namespace: Bytes, key: Bytes, before: seq<Place>, ops: seq<Op>, now: seq<Place>)
    requires AllSorted(bs) && Checksum(before).Ok? && forall i :: 0 <= i < |ops| ==> Spares(ops[i], namespace, key)
    ensures
      var saved := Lookup(Stored(PutInto(bs, namespace, key, Checksum(before).value), ops), namespace, key);
      && Changed(saved, now) ==
           (if Fails(now) then None else Some(!HasFiles(now) || Contents(now) != Contents(before)))
      && Changed(saved, before) == Some(false)
  {
    var saved := Lookup(Stored(PutInto(bs, namespace, key, Checksum(before).value), ops), namespace, key);
    SavedIsFound(bs, namespace, key, Checksum(before).value, ops);
    ChangedFrom(saved, before, now);
  }

  lemma {:induction false} NoEntry(ops: seq<Op>, n: Bytes, k: Bytes)
    requires forall i :: 0 <= i < |ops| ==> ops[i].Put? ==> ops[i].namespace != n || ops[i].key != k
    ensures (n, k) !in Table(ops)
  {
    if ops != [] {
      NoEntry(ops[..|ops| - 1], n, k);
    }
  }

  /** As long as no checksum was saved under the key, whatever else is done to the cache, everything has changed,
      whatever is on the disk. */
  lemma NeverSaved(ops: seq<Op>, namespace: Bytes, key: Bytes, now: seq<Place>)
    requires forall i :: 0 <= i < |ops| ==> ops[i].Put? ==> ops[i].namespace != namespace || ops[i].key != key
    ensures Changed(Lookup(Stored(map[], ops), namespace, key), now) == Some(true)
  {
    NoEntry(ops, namespace, key);
    CacheIsMap(ops, namespace, key);
  }

  // ----- When there is no checksum -----

  /** A place that cannot be looked at, or whose walk breaks off or meets a file that does not read. */
  predicate Breaks(p: Place) {
    p == Unreadable || (p.Walked? && (Broken in p.visits || File(None) in p.visits))
  }

  ghost predicate Shows(p: Place) {
    p.Walked? && exists content :: File(content) in p.visits
  }

  lemma OnePlace(p: Place)
    ensures PlaceFails(p) <==> Breaks(p)
    ensures HasFile(p) <==> Shows(p)
  {
    if p.Walked? {
      assert forall i :: 0 <= i < |p.visits| ==> p.visits[i] in p.visits;
      if i :| 0 <= i < |p.visits| && p.visits[i].File? {
        assert File(p.visits[i].content) in p.visits;
      }
    }
  }

  /** There is no checksum exactly when a place breaks, or else when there is no file at all. */
  lemma NoChecksum(places: seq<Place>)
    ensures Checksum(places) == Err(Failure) <==> exists i :: 0 <= i < |places| && Breaks(places[i])
    ensures Checksum(places) == Err(NoFile) <==>
            forall i :: 0 <= i < |places| ==> !Breaks(places[i]) && !Shows(places[i])
  {
    forall i | 0 <= i < |places|
      ensures PlaceFails(places[i]) <==> Breaks(places[i])
      ensures HasFile(places[i]) <==> Shows(places[i])
    {
      OnePlace(places[i]);
    }
  }

  // ----- What is seen -----

  lemma {:induction false} AllBytesFrom(a: seq<Place>, b: seq<Place>, k: nat)
    requires k <= |b|
    ensures AllBytes(a + b, |a| + k) == AllBytes(a, |a|) + AllBytes(b, k)
  {
    var all := a + b;
    if k == 0 {
      SameBytes(all, a, |a|);
    } else {
      AllBytesFrom(a, b, k - 1);
      LastBytes(all, |a| + k, b, k);
      Assoc(AllBytes(a, |a|), AllBytes(b, k - 1), PlaceBytes(b[k - 1]));
    }
  }

  lemma {:induction false} SameBytes(a: seq<Place>, b: seq<Place>, n: nat)
    requires n <= |a| && n <= |b| && forall i :: 0 <= i < n ==> a[i] == b[i]
    ensures AllBytes(a, n) == AllBytes(b, n)
  {
    if n > 0 {
      SameBytes(a, b, n - 1);
    }
  }

  lemma {:induction false} WalkBytesFrom(a: seq<Visit>, b: seq<Visit>, k: nat)
    requires k <= |b|
    ensures WalkBytes(a + b, |a| + k) == WalkBytes(a, |a|) + WalkBytes(b, k)
  {
    var all := a + b;
    if k == 0 {
      SameWalk(all, a, |a|);
    } else {
      WalkBytesFrom(a, b, k - 1);
      LastVisit(all, |a| + k, b, k);
      Assoc(WalkBytes(a, |a|), WalkBytes(b, k - 1), VisitBytes(b[k - 1]));
    }
  }

  lemma {:induction false} SameWalk(a: seq<Visit>, b: seq<Visit>, n: nat)
    requires n <= |a| && n <= |b| && forall i :: 0 <= i < n ==> a[i] == b[i]
    ensures WalkBytes(a, n) == WalkBytes(b, n)
  {
    if n > 0 {
      SameWalk(a, b, n - 1);
    }
  }

  lemma Assoc(x: Bytes, y: Bytes, z: Bytes)
    ensures x + y + z == x + (y + z)
  {
  }

  /** What the last of the first n places adds, in two lists that agree on it. */
  lemma LastBytes(a: seq<Place>, m: nat, b: seq<Place>, n: nat)
    requires 0 < m <= |a| && 0 < n <= |b| && a[m - 1] == b[n - 1]
    ensures AllBytes(a, m) == AllBytes(a, m - 1) + PlaceBytes(b[n - 1])
    ensures AllBytes(b, n) == AllBytes(b, n - 1) + PlaceBytes(b[n - 1])
  {
  }

  lemma LastVisit(a: seq<Visit>, m: nat, b: seq<Visit>, n: nat)
    requires 0 < m <= |a| && 0 < n <= |b| && a[m - 1] == b[n - 1]
    ensures WalkBytes(a, m) == WalkBytes(a, m - 1) + VisitBytes(b[n - 1])
    ensures WalkBytes(b, n) == WalkBytes(b, n - 1) + VisitBytes(b[n - 1])
  {
  }

  /** A walk with one file among its visits. */
  function WalkWith(before: seq<Visit>, content: Bytes, after: seq<Visit>): Place {
    Walked(before + [File(Some(content))] + after)
  }

  lemma OneMoreVisit(a: seq<Visit>, content: Bytes)
    ensures
      var visits := a + [File(Some(content))];
      WalkBytes(visits, |visits|) == WalkBytes(a, |a|) + content
  {
    SameWalk(a + [File(Some(content))], a, |a|);
  }

  lemma WalkWithBytes(before: seq<Visit>, content: Bytes, after: seq<Visit>)
    ensures PlaceBytes(WalkWith(before, content, after)) ==
            WalkBytes(before, |before|) + content + WalkBytes(after, |after|)
  {
    var visits := before + [File(Some(content))];
    WalkBytesFrom(visits, after, |after|);
    OneMoreVisit(before, content);
    assert |visits + after| == |visits| + |after|;
  }

  lemma PlacesWithBytes(a: seq<Place>, p: Place, c: seq<Place>)
    ensures Contents(a + [p] + c) == Contents(a) + PlaceBytes(p) + Contents(c)
  {
    AllBytesFrom(a + [p], c, |c|);
    OneMorePlace(a, p);
  }

  lemma OneMorePlace(a: seq<Place>, p: Place)
    ensures AllBytes(a + [p], |a + [p]|) == AllBytes(a, |a|) + PlaceBytes(p)
  {
    SameBytes(a + [p], a, |a|);
  }

  lemma SameEnds(a: Bytes, x: Bytes, y: Bytes, c: Bytes)
    requires a + x + c == a + y + c
    ensures x == y
  {
    assert |x| == |y|;
    assert forall i :: 0 <= i < |x| ==> (a + x + c)[|a| + i] == x[i] && (a + y + c)[|a| + i] == y[i];
  }

  /** Anywhere among the places and files: other bytes in one file, and nothing else, are always seen. */
  lemma EditedFileIsSeen(a: seq<Place>, before: seq<Visit>, was: Bytes, now: Bytes, after: seq<Visit>, c: seq<Place>)
    requires was != now
    ensures
      Contents(a + [WalkWith(before, was, after)] + c) != Contents(a + [WalkWith(before, now, after)] + c)
  {
    var x, y := WalkBytes(before, |before|), WalkBytes(after, |after|);
    PlacesWithBytes(a, WalkWith(before, was, after), c);
    PlacesWithBytes(a, WalkWith(before, now, after), c);
    WalkWithBytes(before, was, after);
    WalkWithBytes(before, now, after);
    Nested(Contents(a), x, was, y, Contents(c));
    Nested(Contents(a), x, now, y, Contents(c));
    if Contents(a + [WalkWith(before, was, after)] + c) == Contents(a + [WalkWith(before, now, after)] + c) {
      SameEnds(Contents(a) + x, was, now, y + Contents(c));
    }
  }

  lemma Nested(a: Bytes, x: Bytes, m: Bytes, y: Bytes, c: Bytes)
    ensures a + (x + m + y) + c == a + x + m + (y + c)
  {
  }

  /** Bytes that move from the end of a file to the start of the next are not seen. */
  lemma BoundariesAreNotSeen(a: Bytes, b: Bytes, c: Bytes)
    ensures Checksum([Walked([File(Some(a + b)), File(Some(c))])]) ==
            Checksum([Walked([File(Some(a)), File(Some(b + c))])])
  {
    TwoFiles(a + b, c);
    TwoFiles(a, b + c);
    assert a + b + c == a + (b + c);
  }

  lemma TwoFiles(x: Bytes, y: Bytes)
    ensures Checksum([Walked([File(Some(x)), File(Some(y))])]) == Ok(x + y)
  {
    var visits := [File(Some(x)), File(Some(y))];
    var p := Walked(visits);
    assert WalkBytes(visits, 0) == [] && WalkBytes(visits, 1) == [] + x == x && WalkBytes(visits, 2) == x + y;
    assert AllBytes([p], 0) == [] && AllBytes([p], 1) == [] + (x + y) == x + y;
    assert visits[0].File?;
    assert HasFile([p][0]);
    assert forall i :: 0 <= i < |visits| ==> !VisitFails(visits[i]);
    assert !PlaceFails(p);
  }
}
