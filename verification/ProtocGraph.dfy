/** The search against the import graph: what it finds is what can be reached. */
module ProtocGraph {
  import opened Common
  import opened Protoc

  // ----- Success -----

  predicate Found(target: Target) {
    !target.Nowhere? && !target.StatFailed?
  }

  /** The file can be read, and each of its imports is found somewhere. */
  predicate Complete(t: Tree, file: string) {
    t.imports(file).Some? && forall i :: 0 <= i < |Deps(t, file)| ==> Found(Resolve(t, file, Deps(t, file)[i]))
  }

  ghost predicate AllComplete(t: Tree, file: string) {
    forall g :: Reachable(t, file, g) ==> Complete(t, g)
  }

  lemma AllCompleteStep(t: Tree, file: string)
    ensures AllComplete(t, file) <==>
            Complete(t, file) && forall next :: Edge(t, file, next) ==> AllComplete(t, next)
  {
    ReachesItself(t, file);
    if AllComplete(t, file) {
      forall next, g | Edge(t, file, next) && Reachable(t, next, g) ensures Complete(t, g) {
        ReachesFurther(t, file, next, g);
      }
    }
    if Complete(t, file) && forall next :: Edge(t, file, next) ==> AllComplete(t, next) {
      forall g | Reachable(t, file, g) ensures Complete(t, g) {
        if g != file {
          var next := ReachesBy(t, file, g);
        }
      }
    }
  }

  /** The first n imports are found, and everything outside the app they lead to is complete. */
  ghost predicate PartComplete(t: Tree, file: string, n: nat)
    requires n <= |Deps(t, file)|
  {
    forall i :: 0 <= i < n ==> ImportComplete(t, file, i)
  }

  ghost predicate ImportComplete(t: Tree, file: string, i: nat)
    requires i < |Deps(t, file)|
  {
    var target := Resolve(t, file, Deps(t, file)[i]);
    Found(target) && (target.Included? ==> AllComplete(t, target.path))
  }

  lemma {:induction false} SearchSucceeds(t: Tree, rank: string -> nat, file: string, n: nat)
    requires Ranked(t, rank, file) && n <= |Deps(t, file)|
    ensures Search(t, rank, file, n).Some? <==> PartComplete(t, file, n)
    decreases rank(file), n
  {
    if n > 0 {
      SearchSucceeds(t, rank, file, n - 1);
      EdgeAt(t, rank, file, n - 1);
      var target := Resolve(t, file, Deps(t, file)[n - 1]);
      if target.Included? {
        SearchAllSucceeds(t, rank, target.path);
      }
      assert PartComplete(t, file, n) <==> PartComplete(t, file, n - 1) && ImportComplete(t, file, n - 1);
    }
  }

  /** The search of a file succeeds just when every file it expands can be read and all its imports found. */
  lemma {:induction false} SearchAllSucceeds(t: Tree, rank: string -> nat, file: string)
    requires Ranked(t, rank, file)
    ensures SearchAll(t, rank, file).Some? <==> AllComplete(t, file)
    decreases rank(file), |Deps(t, file)| + 1
  {
    AllCompleteStep(t, file);
    SearchSucceeds(t, rank, file, |Deps(t, file)|);
    if t.imports(file).Some? {
      CompleteParts(t, file);
    }
  }

  lemma CompleteParts(t: Tree, file: string)
    requires t.imports(file).Some?
    ensures PartComplete(t, file, |Deps(t, file)|) <==>
            Complete(t, file) && forall next :: Edge(t, file, next) ==> AllComplete(t, next)
  {
    var deps := Deps(t, file);
    if PartComplete(t, file, |deps|) {
      forall i | 0 <= i < |deps| ensures Found(Resolve(t, file, deps[i])) {
        assert ImportComplete(t, file, i);
      }
      forall next | Edge(t, file, next) ensures AllComplete(t, next) {
        var i :| 0 <= i < |deps| && Resolve(t, file, deps[i]) == Included(next);
        assert ImportComplete(t, file, i);
      }
    }
    if Complete(t, file) && forall next :: Edge(t, file, next) ==> AllComplete(t, next) {
      forall i | 0 <= i < |deps| ensures ImportComplete(t, file, i) {
        var target := Resolve(t, file, deps[i]);
        assert target.Included? ==> Edge(t, file, target.path);
      }
    }
  }

  // ----- What is found -----

  predicate Adds(target: Target, path: string) {
    target == Relative(path) || target == Included(path)
  }

  predicate Names(t: Tree, file: string, path: string) {
    exists i :: 0 <= i < |Deps(t, file)| && Adds(Resolve(t, file, Deps(t, file)[i]), path)
  }

  /** The path is where an import of some reachable file was found, next to that file or outside the app. */
  ghost predicate Wanted(t: Tree, file: string, path: string) {
    exists g :: Reachable(t, file, g) && Names(t, g, path)
  }

  lemma WantedStep(t: Tree, file: string, path: string)
    ensures Wanted(t, file, path) <==>
            Names(t, file, path) || exists next :: Edge(t, file, next) && Wanted(t, next, path)
  {
    ReachesItself(t, file);
    if Wanted(t, file, path) {
      var g :| Reachable(t, file, g) && Names(t, g, path);
      if g != file {
        var next := ReachesBy(t, file, g);
        assert Wanted(t, next, path);
      }
    }
    if next :| Edge(t, file, next) && Wanted(t, next, path) {
      var g :| Reachable(t, next, g) && Names(t, g, path);
      ReachesFurther(t, file, next, g);
    }
  }

  ghost predicate ImportAdds(t: Tree, file: string, i: nat, path: string)
    requires i < |Deps(t, file)|
  {
    var target := Resolve(t, file, Deps(t, file)[i]);
    Adds(target, path) || (target.Included? && Wanted(t, target.path, path))
  }

  lemma {:induction false} SearchFinds(t: Tree, rank: string -> nat, file: string, n: nat, path: string)
    requires Ranked(t, rank, file) && n <= |Deps(t, file)| && Search(t, rank, file, n).Some?
    ensures path in Search(t, rank, file, n).value <==> exists i :: 0 <= i < n && ImportAdds(t, file, i, path)
    decreases rank(file), n
  {
    if n > 0 {
      SearchOneMore(t, rank, file, n - 1, path);
      SearchFinds(t, rank, file, n - 1, path);
      ImportFindsAdded(t, rank, file, n - 1, path);
    }
  }

  lemma SearchOneMore(t: Tree, rank: string -> nat, file: string, n: nat, path: string)
    requires Ranked(t, rank, file) && n < |Deps(t, file)| && Search(t, rank, file, n + 1).Some?
    ensures Search(t, rank, file, n).Some? && ImportFinds(t, rank, file, n).Some?
    ensures path in Search(t, rank, file, n + 1).value <==>
            path in Search(t, rank, file, n).value || path in ImportFinds(t, rank, file, n).value
  {
  }

  lemma {:induction false} ImportFindsAdded(t: Tree, rank: string -> nat, file: string, i: nat, path: string)
    requires Ranked(t, rank, file) && i < |Deps(t, file)| && ImportFinds(t, rank, file, i).Some?
    ensures path in ImportFinds(t, rank, file, i).value <==> ImportAdds(t, file, i, path)
    decreases rank(file), i
  {
    EdgeAt(t, rank, file, i);
    var target := Resolve(t, file, Deps(t, file)[i]);
    if target.Included? {
      SearchAllFinds(t, rank, target.path, path);
    }
  }

  /** A search that succeeds finds exactly what is wanted. */
  lemma {:induction false} SearchAllFinds(t: Tree, rank: string -> nat, file: string, path: string)
    requires Ranked(t, rank, file) && SearchAll(t, rank, file).Some?
    ensures path in SearchAll(t, rank, file).value <==> Wanted(t, file, path)
    decreases rank(file), |Deps(t, file)| + 1
  {
    SearchFinds(t, rank, file, |Deps(t, file)|, path);
    WantedStep(t, file, path);
    WantedParts(t, file, path);
  }

  lemma WantedParts(t: Tree, file: string, path: string)
    ensures (exists i :: 0 <= i < |Deps(t, file)| && ImportAdds(t, file, i, path)) <==>
            Names(t, file, path) || exists next :: Edge(t, file, next) && Wanted(t, next, path)
  {
    var deps := Deps(t, file);
    if i :| 0 <= i < |deps| && ImportAdds(t, file, i, path) {
      var target := Resolve(t, file, deps[i]);
      if !Adds(target, path) {
        assert Edge(t, file, target.path);
      }
    }
    if Names(t, file, path) {
      var i :| 0 <= i < |deps| && Adds(Resolve(t, file, deps[i]), path);
      assert ImportAdds(t, file, i, path);
    }
    if next :| Edge(t, file, next) && Wanted(t, next, path) {
      var i :| 0 <= i < |deps| && Resolve(t, file, deps[i]) == Included(next);
      assert ImportAdds(t, file, i, path);
    }
  }

  // ----- Where an import is found -----

  /** Where an import is looked for, in order: next to the file, then below each include path. */
  function Places(t: Tree, file: string, dep: string): seq<string> {
    [t.relative(file, dep)] + seq(|t.includes|, i requires 0 <= i < |t.includes| => t.below(t.includes[i], dep))
  }

  /** The k-th place is the first at which something is there, or which cannot be asked. */
  predicate Answers(t: Tree, places: seq<string>, k: nat) {
    && k < |places| && t.stat(places[k]) != Missing
    && forall j :: 0 <= j < k ==> t.stat(places[j]) == Missing
  }

  lemma {:induction false} IncludedMeans(t: Tree, file: string, dep: string, i: nat)
    requires i <= |t.includes|
    requires forall j :: 0 <= j <= i ==> t.stat(Places(t, file, dep)[j]) == Missing
    ensures
      var places, target := Places(t, file, dep), IncludedFrom(t, dep, i);
      && (target.Nowhere? ==> forall k :: 0 <= k < |places| ==> t.stat(places[k]) == Missing)
      && (!target.Nowhere? ==> exists k: nat :: Answers(t, places, k) && IsTarget(t, places, k, target))
    decreases |t.includes| - i
  {
    if i < |t.includes| {
      var places := Places(t, file, dep);
      assert places[i + 1] == t.below(t.includes[i], dep);
      if t.stat(places[i + 1]) == Missing {
        IncludedMeans(t, file, dep, i + 1);
      } else {
        assert Answers(t, places, i + 1) && IsTarget(t, places, i + 1, IncludedFrom(t, dep, i));
      }
    }
  }

  /** What it means that the k-th place answers: an error; a file next to the one that names it; or one below an
      include path, which is the app's own just when it lies under the proto path. */
  predicate IsTarget(t: Tree, places: seq<string>, k: nat, target: Target)
    requires k < |places|
  {
    target == if t.stat(places[k]) == Failed then StatFailed
              else if k == 0 then Relative(places[0])
              else if t.protoPath <= places[k] then Own(places[k])
              else Included(places[k])
  }

  /** An import is where the first place that answers says, and nowhere if all miss it. */
  lemma ResolveMeans(t: Tree, file: string, dep: string)
    ensures
      var places, target := Places(t, file, dep), Resolve(t, file, dep);
      && (target.Nowhere? <==> forall k :: 0 <= k < |places| ==> t.stat(places[k]) == Missing)
      && (!target.Nowhere? <==> exists k: nat :: Answers(t, places, k))
      && forall k: nat :: Answers(t, places, k) ==> IsTarget(t, places, k, target)
  {
    var places := Places(t, file, dep);
    if t.stat(places[0]) == Missing {
      IncludedMeans(t, file, dep, 0);
    } else {
      assert Answers(t, places, 0);
    }
    forall j: nat, k: nat | Answers(t, places, j) && Answers(t, places, k) ensures j == k {
    }
  }

  /** The import is there at this path, next to the file that names it or below an include path. */
  predicate FoundAt(t: Tree, file: string, dep: string, k: nat, path: string) {
    var places := Places(t, file, dep);
    Answers(t, places, k) && t.stat(places[k]) == Exists && path == places[k]
  }

  ghost predicate FoundOutside(t: Tree, file: string, dep: string, path: string) {
    exists k: nat :: k > 0 && FoundAt(t, file, dep, k, path) && !(t.protoPath <= path)
  }

  ghost predicate FoundBeside(t: Tree, file: string, dep: string, path: string) {
    FoundAt(t, file, dep, 0, path)
  }

  ghost predicate Contributed(t: Tree, file: string, dep: string, path: string) {
    FoundBeside(t, file, dep, path) || FoundOutside(t, file, dep, path)
  }

  lemma TargetMeans(t: Tree, file: string, dep: string, path: string)
    ensures Resolve(t, file, dep) == Included(path) <==> FoundOutside(t, file, dep, path)
    ensures Resolve(t, file, dep) == Relative(path) <==> FoundBeside(t, file, dep, path)
    ensures Found(Resolve(t, file, dep)) <==> exists k: nat, p :: FoundAt(t, file, dep, k, p)
  {
    var places := Places(t, file, dep);
    ResolveMeans(t, file, dep);
    if Found(Resolve(t, file, dep)) {
      var k: nat :| Answers(t, places, k);
      assert FoundAt(t, file, dep, k, places[k]);
    }
  }

  /** The edges of the graph, and the paths a file contributes, without the search: an import found outside the
      app leads on; one found there or next to the file is added. */
  lemma EdgesMean(t: Tree, file: string, path: string)
    ensures Edge(t, file, path) <==>
            t.imports(file).Some? && exists dep :: dep in t.imports(file).value && FoundOutside(t, file, dep, path)
    ensures Names(t, file, path) <==>
            t.imports(file).Some? && exists dep :: dep in t.imports(file).value && Contributed(t, file, dep, path)
    ensures Complete(t, file) <==>
            t.imports(file).Some? && forall dep :: dep in t.imports(file).value ==>
              exists k: nat, p :: FoundAt(t, file, dep, k, p)
  {
    forall dep
      ensures Resolve(t, file, dep) == Included(path) <==> FoundOutside(t, file, dep, path)
      ensures Resolve(t, file, dep) == Relative(path) <==> FoundBeside(t, file, dep, path)
      ensures Found(Resolve(t, file, dep)) <==> exists k: nat, p :: FoundAt(t, file, dep, k, p)
    {
      TargetMeans(t, file, dep, path);
    }
    if t.imports(file).Some? {
      var deps := t.imports(file).value;
      assert deps == Deps(t, file);
      assert forall i :: 0 <= i < |deps| ==> deps[i] in deps;
    }
  }

  // ----- In which order -----

  function Flat(blocks: seq<seq<string>>): seq<string> {
    if blocks == [] then [] else Flat(blocks[..|blocks| - 1]) + blocks[|blocks| - 1]
  }

  /** What one import contributes: the path where it was found and, when that is outside the app, everything the
      search of it finds; nothing, when the app holds it already. */
  ghost predicate IsBlock(t: Tree, rank: string -> nat, file: string, dep: string, block: seq<string>) {
    && (forall path :: FoundBeside(t, file, dep, path) ==> block == [path])
    && (forall path :: FoundOutside(t, file, dep, path) ==>
          Ranked(t, rank, path) && SearchAll(t, rank, path).Some? && block == [path] + SearchAll(t, rank, path).value)
    && (forall k: nat, path :: k > 0 && FoundAt(t, file, dep, k, path) && t.protoPath <= path ==> block == [])
  }

  lemma ImportIsBlock(t: Tree, rank: string -> nat, file: string, i: nat)
    requires Ranked(t, rank, file) && i < |Deps(t, file)| && ImportFinds(t, rank, file, i).Some?
    ensures IsBlock(t, rank, file, Deps(t, file)[i], ImportFinds(t, rank, file, i).value)
  {
    var dep := Deps(t, file)[i];
    EdgeAt(t, rank, file, i);
    ResolveMeans(t, file, dep);
    forall path
      ensures Resolve(t, file, dep) == Included(path) <==> FoundOutside(t, file, dep, path)
      ensures Resolve(t, file, dep) == Relative(path) <==> FoundBeside(t, file, dep, path)
    {
      TargetMeans(t, file, dep, path);
    }
  }

  lemma {:induction false} SearchBlocks(t: Tree, rank: string -> nat, file: string, n: nat)
    returns (blocks: seq<seq<string>>)
    requires Ranked(t, rank, file) && n <= |Deps(t, file)| && Search(t, rank, file, n).Some?
    ensures |blocks| == n && Flat(blocks) == Search(t, rank, file, n).value
    ensures forall i :: 0 <= i < n ==> IsBlock(t, rank, file, Deps(t, file)[i], blocks[i])
    decreases n
  {
    if n == 0 {
      blocks := [];
    } else {
      var before := SearchBlocks(t, rank, file, n - 1);
      assert Search(t, rank, file, n).value == Flat(before) + ImportFinds(t, rank, file, n - 1).value;
      var last := ImportFinds(t, rank, file, n - 1).value;
      ImportIsBlock(t, rank, file, n - 1);
      blocks := before + [last];
      FlatMore(before, last);
    }
  }

  lemma FlatMore(blocks: seq<seq<string>>, last: seq<string>)
    ensures Flat(blocks + [last]) == Flat(blocks) + last
  {
    assert (blocks + [last])[..|blocks|] == blocks;
  }

  /** A search finds the contributions of the imports in the order in which the file names them. */
  lemma SearchInOrder(t: Tree, rank: string -> nat, file: string) returns (blocks: seq<seq<string>>)
    requires Ranked(t, rank, file) && SearchAll(t, rank, file).Some?
    ensures Flat(blocks) == SearchAll(t, rank, file).value
    ensures t.imports(file).Some? && |blocks| == |t.imports(file).value|
    ensures forall i :: 0 <= i < |blocks| ==> IsBlock(t, rank, file, t.imports(file).value[i], blocks[i])
  {
    blocks := SearchBlocks(t, rank, file, |Deps(t, file)|);
  }

  // ----- The whole discovery -----

  lemma {:induction false} GatheringSucceeds(files: seq<string>, found: seq<Option<seq<string>>>, n: nat)
    requires n <= |found|
    ensures Gathered(files, found, n).Some? <==> forall i :: 0 <= i < n ==> found[i].Some?
  {
    if n > 0 {
      GatheringSucceeds(files, found, n - 1);
    }
  }

  predicate HoldsPath(found: Option<seq<string>>, path: string) {
    found.Some? && path in found.value
  }

  lemma {:induction false} GatheringFinds(files: seq<string>, found: seq<Option<seq<string>>>, n: nat, path: string)
    requires n <= |found| && Gathered(files, found, n).Some?
    ensures path in Gathered(files, found, n).value <==>
            path in files || exists i :: 0 <= i < n && HoldsPath(found[i], path)
  {
    if n > 0 {
      GatheringFinds(files, found, n - 1, path);
    }
  }

  /** The discovery succeeds just when every search does... */
  lemma DiscoverySucceeds(t: Tree, rank: string -> nat, files: seq<string>)
    requires AllRanked(t, rank, files)
    ensures Discovered(t, rank, files).Some? <==> forall i :: 0 <= i < |files| ==> AllComplete(t, files[i])
  {
    var found := Searches(t, rank, files);
    GatheringSucceeds(files, found, |files|);
    forall i: nat | i < |files| ensures found[i].Some? <==> AllComplete(t, files[i]) {
      SearchAllSucceeds(t, rank, files[i]);
    }
  }

  ghost predicate WantedBy(t: Tree, files: seq<string>, path: string) {
    exists i :: 0 <= i < |files| && Wanted(t, files[i], path)
  }

  /** ... and finds the app's files and exactly what they want besides. */
  lemma DiscoveryFinds(t: Tree, rank: string -> nat, files: seq<string>, path: string)
    requires AllRanked(t, rank, files) && Discovered(t, rank, files).Some?
    ensures path in Discovered(t, rank, files).value <==> path in files || WantedBy(t, files, path)
  {
    var found := Searches(t, rank, files);
    GatheringSucceeds(files, found, |files|);
    GatheringFinds(files, found, |files|, path);
    forall i: nat | i < |files| ensures HoldsPath(found[i], path) <==> Wanted(t, files[i], path) {
      assert found[i] == SearchAll(t, rank, files[i]);
      SearchAllFinds(t, rank, files[i], path);
    }
  }

  lemma {:induction false} GatheredInOrder(files: seq<string>, found: seq<Option<seq<string>>>, n: nat)
    returns (blocks: seq<seq<string>>)
    requires n <= |found| && Gathered(files, found, n).Some?
    ensures |blocks| == n && Gathered(files, found, n).value == files + Flat(blocks)
    ensures forall i :: 0 <= i < n ==> found[i] == Some(blocks[i])
  {
    if n == 0 {
      blocks := [];
      assert files + [] == files;
    } else {
      var before := GatheredInOrder(files, found, n - 1);
      blocks := before + [found[n - 1].value];
      FlatMore(before, found[n - 1].value);
      assert files + (Flat(before) + found[n - 1].value) == files + Flat(before) + found[n - 1].value;
    }
  }

  /** The app's own files come first, then what each of them leads to, in their order. */
  lemma DiscoveryInOrder(t: Tree, rank: string -> nat, files: seq<string>) returns (blocks: seq<seq<string>>)
    requires AllRanked(t, rank, files) && Discovered(t, rank, files).Some?
    ensures |blocks| == |files| && Discovered(t, rank, files).value == files + Flat(blocks)
    ensures forall i :: 0 <= i < |files| ==> SearchAll(t, rank, files[i]) == Some(blocks[i])
  {
    blocks := GatheredInOrder(files, Searches(t, rank, files), |files|);
  }

  // ----- No cycle, no endless search -----

  /** One edge or more lead from a file to another. */
  ghost predicate LeadsTo(t: Tree, from: string, to: string) {
    exists next :: Edge(t, from, next) && Reachable(t, next, to)
  }

  ghost predicate Acyclic(t: Tree, file: string) {
    forall f :: Reachable(t, file, f) ==> !LeadsTo(t, f, f)
  }

  /** A finite set of files that holds the file and whatever its files' edges lead to. */
  ghost predicate Closed(t: Tree, file: string, files: set<string>) {
    file in files && forall f, g :: f in files && Edge(t, f, g) ==> g in files
  }

  lemma {:induction false} ChainStays(t: Tree, file: string, files: set<string>, chain: seq<string>)
    requires Closed(t, file, files) && Chain(t, chain) && chain[0] in files
    ensures chain[|chain| - 1] in files
  {
    if |chain| > 1 {
      var n := |chain| - 1;
      forall i | 0 <= i < n - 1 ensures Edge(t, chain[..n][i], chain[..n][i + 1]) {
        assert Edge(t, chain[i], chain[i + 1]);
      }
      ChainStays(t, file, files, chain[..n]);
      assert Edge(t, chain[n - 1], chain[n]);
    }
  }

  lemma ReachedStays(t: Tree, file: string, files: set<string>, f: string, g: string)
    requires Closed(t, file, files) && f in files && Reachable(t, f, g)
    ensures g in files
  {
    var chain :| Chain(t, chain) && chain[0] == f && chain[|chain| - 1] == g;
    ChainStays(t, file, files, chain);
  }

  lemma {:induction false} ChainsJoin(t: Tree, a: seq<string>, to: string)
    requires Chain(t, a) && Reachable(t, a[|a| - 1], to)
    ensures Reachable(t, a[0], to)
  {
    if |a| > 1 {
      assert Edge(t, a[0], a[1]);
      forall i | 0 <= i < |a[1..]| - 1 ensures Edge(t, a[1..][i], a[1..][i + 1]) {
        assert Edge(t, a[i + 1], a[i + 2]);
      }
      ChainsJoin(t, a[1..], to);
      ReachesFurther(t, a[0], a[1], to);
    }
  }

  lemma ReachesThrough(t: Tree, f: string, g: string, h: string)
    requires Reachable(t, f, g) && Reachable(t, g, h)
    ensures Reachable(t, f, h)
  {
    var chain :| Chain(t, chain) && chain[0] == f && chain[|chain| - 1] == g;
    ChainsJoin(t, chain, h);
  }

  ghost function Ahead(t: Tree, files: set<string>, f: string): set<string> {
    set g | g in files && LeadsTo(t, f, g)
  }

  /** From the end of an edge fewer files lie ahead than from its start. */
  lemma FewerAhead(t: Tree, file: string, files: set<string>, f: string, g: string)
    requires Closed(t, file, files) && Acyclic(t, file) && Reachable(t, file, f) && Edge(t, f, g)
    ensures Ahead(t, files, g) < Ahead(t, files, f)
  {
    ReachesItself(t, g);
    assert LeadsTo(t, f, g);
    ReachedStays(t, file, files, file, f);
    assert g in Ahead(t, files, f);
    OneEdge(t, f, g);
    ReachesThrough(t, file, f, g);
    assert g !in Ahead(t, files, g);
    forall h | h in Ahead(t, files, g) ensures h in Ahead(t, files, f) {
      var next :| Edge(t, g, next) && Reachable(t, next, h);
      ReachesFurther(t, g, next, h);
      assert LeadsTo(t, f, h);
    }
  }

  lemma OneEdge(t: Tree, f: string, g: string)
    requires Edge(t, f, g)
    ensures Reachable(t, f, g)
  {
    ReachesItself(t, g);
    ReachesFurther(t, f, g, g);
  }

  lemma SmallerSet(a: set<string>, b: set<string>)
    requires a < b
    ensures |a| < |b|
  {
    var x :| x in b && x !in a;
    SubsetCount(a, b - {x});
  }

  lemma {:induction false} ChainDescends(t: Tree, rank: string -> nat, file: string, chain: seq<string>)
    requires Ranked(t, rank, file) && Chain(t, chain) && Reachable(t, file, chain[0])
    ensures |chain| > 1 ==> rank(chain[|chain| - 1]) < rank(chain[0])
    decreases |chain|
  {
    if |chain| > 1 {
      assert Edge(t, chain[0], chain[1]);
      OneEdge(t, chain[0], chain[1]);
      ReachesThrough(t, file, chain[0], chain[1]);
      forall i | 0 <= i < |chain[1..]| - 1 ensures Edge(t, chain[1..][i], chain[1..][i + 1]) {
        assert Edge(t, chain[i + 1], chain[i + 2]);
      }
      ChainDescends(t, rank, file, chain[1..]);
    }
  }

  lemma RankedIsAcyclic(t: Tree, rank: string -> nat, file: string)
    requires Ranked(t, rank, file)
    ensures Acyclic(t, file)
  {
    forall f | Reachable(t, file, f) ensures !LeadsTo(t, f, f) {
      if next :| Edge(t, f, next) && Reachable(t, next, f) {
        var chain :| Chain(t, chain) && chain[0] == next && chain[|chain| - 1] == f;
        OneEdge(t, f, next);
        ReachesThrough(t, file, f, next);
        ChainDescends(t, rank, file, chain);
        assert rank(next) < rank(f);
      }
    }
  }

  /** The files a search reaches have a rank exactly when no one of them leads back to itself. */
  lemma RankExists(t: Tree, file: string, files: set<string>)
    requires Closed(t, file, files)
    ensures (exists rank: string -> nat :: Ranked(t, rank, file)) <==> Acyclic(t, file)
  {
    if rank: string -> nat :| Ranked(t, rank, file) {
      RankedIsAcyclic(t, rank, file);
    }
    if Acyclic(t, file) {
      var rank: string -> nat := f => |Ahead(t, files, f)|;
      forall f, g | Reachable(t, file, f) && Edge(t, f, g) ensures rank(g) < rank(f) {
        FewerAhead(t, file, files, f, g);
        SmallerSet(Ahead(t, files, g), Ahead(t, files, f));
      }
      assert Ranked(t, rank, file);
    }
  }
}
