/**
  The search for the proto files code is generated for. The file system answers as functions of a path, and
  joining paths is left open.
 */
module Protoc {
  import opened Common

  datatype Stat = Exists | Missing | Failed

  /** The file system as the search sees it: what os.Stat answers, the imports of a file that parses, an import
      relative to the file that names it, and an import below an include path. */
  datatype Tree = Tree(
    stat: string -> Stat,
    imports: string -> Option<seq<string>>,
    relative: (string, string) -> string,
    below: (string, string) -> string,
    protoPath: string,
    includes: seq<string>)

  /** Where an import is found: next to the file, below an include path but inside the app's own proto path, or
      outside it. */
  datatype Target = Relative(path: string) | Own(path: string) | Included(path: string) | Nowhere | StatFailed

  /** The import below the include paths, from the i-th on. */
  function IncludedFrom(t: Tree, dep: string, i: nat): Target
    requires i <= |t.includes|
    decreases |t.includes| - i
  {
    if i == |t.includes| then Nowhere
    else
      var path := t.below(t.includes[i], dep);
      match t.stat(path)
      case Exists => if t.protoPath <= path then Own(path) else Included(path)
      case Failed => StatFailed
      case Missing => IncludedFrom(t, dep, i + 1)
  }

  function Resolve(t: Tree, file: string, dep: string): Target {
    match t.stat(t.relative(file, dep))
    case Exists => Relative(t.relative(file, dep))
    case Failed => StatFailed
    case Missing => IncludedFrom(t, dep, 0)
  }

  function Deps(t: Tree, file: string): seq<string> {
    if t.imports(file).Some? then t.imports(file).value else []
  }

  /** The file has an import that is found outside the app, so its own imports are searched. */
  predicate Edge(t: Tree, file: string, next: string) {
    exists i :: 0 <= i < |Deps(t, file)| && Resolve(t, file, Deps(t, file)[i]) == Included(next)
  }

  // ----- Reachable files -----

  /** Each file has an import that leads to the next. */
  predicate Chain(t: Tree, files: seq<string>) {
    files != [] && forall i :: 0 <= i < |files| - 1 ==> Edge(t, files[i], files[i + 1])
  }

  ghost predicate Reachable(t: Tree, from: string, to: string) {
    exists files :: Chain(t, files) && files[0] == from && files[|files| - 1] == to
  }

  lemma ReachesItself(t: Tree, file: string)
    ensures Reachable(t, file, file)
  {
    assert Chain(t, [file]) && [file][0] == file;
  }

  lemma ReachesFurther(t: Tree, from: string, next: string, to: string)
    requires Edge(t, from, next) && Reachable(t, next, to)
    ensures Reachable(t, from, to)
  {
    var files :| Chain(t, files) && files[0] == next && files[|files| - 1] == to;
    var longer := [from] + files;
    forall i | 0 <= i < |longer| - 1 ensures Edge(t, longer[i], longer[i + 1]) {
      assert i > 0 ==> Edge(t, files[i - 1], files[i]);
    }
    assert Chain(t, longer) && longer[|longer| - 1] == to;
  }

  lemma ReachesBy(t: Tree, from: string, to: string) returns (next: string)
    requires Reachable(t, from, to) && from != to
    ensures Edge(t, from, next) && Reachable(t, next, to)
  {
    var files :| Chain(t, files) && files[0] == from && files[|files| - 1] == to;
    next := files[1];
    assert Edge(t, files[0], files[1]);
    var rest := files[1..];
    forall i | 0 <= i < |rest| - 1 ensures Edge(t, rest[i], rest[i + 1]) {
      assert Edge(t, files[i + 1], files[i + 2]);
    }
    assert Chain(t, rest) && rest[0] == next && rest[|rest| - 1] == to;
  }

  /** Among the files that can be reached, every edge leads to a smaller rank: there is no cycle. */
  ghost predicate Ranked(t: Tree, rank: string -> nat, file: string) {
    forall f, g :: Reachable(t, file, f) && Edge(t, f, g) ==> rank(g) < rank(f)
  }

  lemma RankedNext(t: Tree, rank: string -> nat, file: string, next: string)
    requires Ranked(t, rank, file) && Edge(t, file, next)
    ensures rank(next) < rank(file) && Ranked(t, rank, next)
  {
    ReachesItself(t, file);
    forall f, g | Reachable(t, next, f) && Edge(t, f, g) ensures rank(g) < rank(f) {
      ReachesFurther(t, file, next, f);
    }
  }

  lemma EdgeAt(t: Tree, rank: string -> nat, file: string, i: nat)
    requires Ranked(t, rank, file) && i < |Deps(t, file)|
    ensures
      var target := Resolve(t, file, Deps(t, file)[i]);
      target.Included? ==> Edge(t, file, target.path) && rank(target.path) < rank(file) && Ranked(t, rank, target.path)
  {
    var target := Resolve(t, file, Deps(t, file)[i]);
    if target.Included? {
      assert Edge(t, file, target.path);
      RankedNext(t, rank, file, target.path);
    }
  }

  /** What the i-th import of a file adds; none if it cannot be found or read, or its own imports cannot. */
  ghost function ImportFinds(t: Tree, rank: string -> nat, file: string, i: nat): Option<seq<string>>
    requires Ranked(t, rank, file) && i < |Deps(t, file)|
    decreases rank(file), i
  {
    EdgeAt(t, rank, file, i);
    match Resolve(t, file, Deps(t, file)[i])
    case Relative(path) => Some([path])
    case Own(_) => Some([])
    case Included(path) =>
      var more := SearchAll(t, rank, path);
      if more.None? then None else Some([path] + more.value)
    case Nowhere => None
    case StatFailed => None
  }

  /** What the first n imports of a file add. */
  ghost function Search(t: Tree, rank: string -> nat, file: string, n: nat): Option<seq<string>>
    requires Ranked(t, rank, file) && n <= |Deps(t, file)|
    decreases rank(file), n
  {
    if n == 0 then Some([])
    else
      var before, more := Search(t, rank, file, n - 1), ImportFinds(t, rank, file, n - 1);
      if before.None? || more.None? then None else Some(before.value + more.value)
  }

  ghost function SearchAll(t: Tree, rank: string -> nat, file: string): Option<seq<string>>
    requires Ranked(t, rank, file)
    decreases rank(file), |Deps(t, file)| + 1
  {
    if t.imports(file).None? then None else Search(t, rank, file, |Deps(t, file)|)
  }

  method Locate(t: Tree, file: string, dep: string) returns (target: Target)
    ensures target == Resolve(t, file, dep)
  {
    var guessedPath := t.relative(file, dep);
    match t.stat(guessedPath) {
      case Exists => return Relative(guessedPath);
      case Failed => return StatFailed;
      case Missing =>
    }
    var i := 0;
    while i < |t.includes|
      invariant i <= |t.includes| && IncludedFrom(t, dep, 0) == IncludedFrom(t, dep, i)
    {
      guessedPath := t.below(t.includes[i], dep);
      match t.stat(guessedPath) {
        case Exists =>
          if t.protoPath <= guessedPath {
            return Own(guessedPath);
          }
          return Included(guessedPath);
        case Failed => return StatFailed;
        case Missing =>
      }
      i := i + 1;
    }
    target := Nowhere;
  }

  method SearchImport(t: Tree, ghost rank: string -> nat, file: string, i: nat) returns (found: Option<seq<string>>)
    requires Ranked(t, rank, file) && i < |Deps(t, file)|
    ensures found == ImportFinds(t, rank, file, i)
    decreases rank(file), i
  {
    EdgeAt(t, rank, file, i);
    var target := Locate(t, file, Deps(t, file)[i]);
    match target {
      case Relative(path) => return Some([path]);
      case Own(_) => return Some([]);
      case Included(path) =>
        if t.imports(path).None? {
          return None;
        }
        var d := SearchFile(t, rank, path);
        return if d.None? then None else Some([path] + d.value);
      case Nowhere => return None;
      case StatFailed => return None;
    }
  }

  /** Searches the imports of a file that was read. */
  method SearchFile(t: Tree, ghost rank: string -> nat, file: string) returns (found: Option<seq<string>>)
    requires Ranked(t, rank, file) && t.imports(file).Some?
    ensures found == SearchAll(t, rank, file)
    decreases rank(file), |Deps(t, file)| + 1
  {
    var deps := t.imports(file).value;
    var discovered: seq<string> := [];
    for i := 0 to |deps|
      invariant Search(t, rank, file, i) == Some(discovered)
    {
      var d := SearchImport(t, rank, file, i);
      if d.None? {
        SearchFails(t, rank, file, i + 1);
        return None;
      }
      discovered := discovered + d.value;
    }
    found := Some(discovered);
  }

  lemma {:induction false} SearchFails(t: Tree, rank: string -> nat, file: string, n: nat)
    requires Ranked(t, rank, file) && n <= |Deps(t, file)| && Search(t, rank, file, n).None?
    ensures Search(t, rank, file, |Deps(t, file)|).None?
    decreases |Deps(t, file)| - n
  {
    if n < |Deps(t, file)| {
      SearchFails(t, rank, file, n + 1);
    }
  }

  ghost predicate AllRanked(t: Tree, rank: string -> nat, files: seq<string>) {
    forall i :: 0 <= i < |files| ==> Ranked(t, rank, files[i])
  }

  /** What the search of each file finds. */
  ghost function Searches(t: Tree, rank: string -> nat, files: seq<string>): seq<Option<seq<string>>>
    requires AllRanked(t, rank, files)
  {
    seq(|files|, i requires 0 <= i < |files| => SearchAll(t, rank, files[i]))
  }

  /** The files and what the first n searches add to them. */
  ghost function Gathered(files: seq<string>, found: seq<Option<seq<string>>>, n: nat): Option<seq<string>>
    requires n <= |found|
  {
    if n == 0 then Some(files)
    else
      var before := Gathered(files, found, n - 1);
      if before.None? || found[n - 1].None? then None else Some(before.value + found[n - 1].value)
  }

  ghost function Discovered(t: Tree, rank: string -> nat, files: seq<string>): Option<seq<string>>
    requires AllRanked(t, rank, files)
  {
    Gathered(files, Searches(t, rank, files), |files|)
  }

  /** The app's own files and, when dependencies are generated too, what their imports lead to. */
  method DiscoverFiles(t: Tree, ghost rank: string -> nat, files: seq<string>, withDeps: bool)
    returns (discovered: Option<seq<string>>)
    requires AllRanked(t, rank, files) && forall i :: 0 <= i < |files| ==> t.imports(files[i]).Some?
    ensures discovered == if withDeps then Discovered(t, rank, files) else Some(files)
  {
    if !withDeps {
      return Some(files);
    }
    var all := files;
    ghost var found := Searches(t, rank, files);
    for i := 0 to |files|
      invariant Gathered(files, found, i) == Some(all)
    {
      var d := SearchFile(t, rank, files[i]);
      assert found[i] == d;
      if d.None? {
        GatheringFails(files, found, i + 1);
        return None;
      }
      all := all + d.value;
    }
    discovered := Some(all);
  }

  lemma {:induction false} GatheringFails(files: seq<string>, found: seq<Option<seq<string>>>, n: nat)
    requires n <= |found| && Gathered(files, found, n).None?
    ensures Gathered(files, found, |found|).None?
    decreases |found| - n
  {
    if n < |found| {
      GatheringFails(files, found, n + 1);
    }
  }
}
