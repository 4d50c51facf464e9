/** Running generators: each one dry first, and for real only when the dry run and the tracer found nothing. */
module ScaffoldRunner {
  import opened Common
  import opened Placeholder

  type Files = map<string, string>

  /** What a generator produces: what it writes, or an error - for a file that does not exist, or another. */
  datatype Product = Produced(files: seq<(string, string)>) | NotExist | Failure

  /** What a generator does with the files it finds. Whatever it produces, it has left with the tracer the
      placeholders it missed and other errors. */
  datatype Outcome = Outcome(product: Product, missing: set<string>, misc: seq<string>)

  type Generator = Files -> Outcome

  datatype SourceModification = SourceModification(modified: set<string>, created: set<string>)

  datatype RunError = NoError | Validation | Failed | Placeholders | WetFailed

  function Names(files: seq<(string, string)>, n: nat): set<string>
    requires n <= |files|
  {
    if n == 0 then {} else Names(files, n - 1) + {files[n - 1].0}
  }

  /** The files of a run: those that exist are modified, the others created. */
  function Classified(files: seq<(string, string)>, disk: Files): SourceModification {
    var names := Names(files, |files|);
    SourceModification(names * disk.Keys, names - disk.Keys)
  }

  /** The disk after the first n files are written. */
  function Written(disk: Files, files: seq<(string, string)>, n: nat): Files
    requires n <= |files|
  {
    if n == 0 then disk else Written(disk, files, n - 1)[files[n - 1].0 := files[n - 1].1]
  }

  /** How many of the files a wet run writes: all, or fewer when it fails. */
  function Reached(files: seq<(string, string)>, fault: Option<nat>): (n: nat)
    ensures n <= |files|
  {
    if fault.Some? && fault.value < |files| then fault.value else |files|
  }

  predicate Traced(missing: set<string>, misc: seq<string>) {
    missing != {} || misc != []
  }

  /** The disk, what the tracer holds, what is returned, and the error. */
  datatype End = End(disk: Files, missing: set<string>, misc: seq<string>, sm: SourceModification, error: RunError)

  /** The run of the generators from the i-th on. */
  function RunFrom(disk: Files, missing: set<string>, misc: seq<string>, gens: seq<Generator>,
                   faults: nat -> Option<nat>, sm: SourceModification, i: nat): End
    requires i <= |gens|
    decreases |gens| - i
  {
    if i == |gens| then End(disk, missing, misc, sm, NoError)
    else
      var dry := gens[i](disk);
      var missing', misc' := missing + dry.missing, misc + dry.misc;
      match dry.product
      case NotExist => End(disk, missing', misc', sm, Validation)
      case Failure => End(disk, missing', misc', sm, Failed)
      case Produced(files) =>
        if Traced(missing', misc') then End(disk, missing', misc', sm, Placeholders)
        else
          var after := Written(disk, files, Reached(files, faults(i)));
          var sm' := Classified(files, disk);
          if faults(i).Some? then End(after, missing', misc', sm', WetFailed)
          else RunFrom(after, missing', misc', gens, faults, sm', i + 1)
  }

  const NOTHING := SourceModification({}, {})

  class Disk {
    var files: Files

    constructor (files: Files)
      ensures this.files == files
    {
      this.files := files;
    }

    method Write(files: seq<(string, string)>, n: nat)
      requires n <= |files|
      modifies this
      ensures this.files == Written(old(this.files), files, n)
    {
      for i := 0 to n
        invariant this.files == Written(old(this.files), files, i)
      {
        this.files := this.files[files[i].0 := files[i].1];
      }
    }
  }

  method Classify(files: seq<(string, string)>, disk: Files) returns (sm: SourceModification)
    ensures sm == Classified(files, disk)
  {
    sm := NOTHING;
    for i := 0 to |files|
      invariant sm.modified == Names(files, i) * disk.Keys && sm.created == Names(files, i) - disk.Keys
    {
      var name := files[i].0;
      if name !in sm.modified && name !in sm.created {
        if name in disk {
          sm := sm.(modified := sm.modified + {name});
        } else {
          sm := sm.(created := sm.created + {name});
        }
      }
    }
  }

  /** One generator, dry or wet, leaves its placeholders and errors with the tracer. */
  method RunGenerator(tracer: Tracer, disk: Disk, g: Generator) returns (product: Product)
    modifies tracer
    ensures product == g(disk.files).product
    ensures tracer.missing == old(tracer.missing) + g(disk.files).missing
    ensures tracer.miscErrors == old(tracer.miscErrors) + g(disk.files).misc
  {
    var outcome := g(disk.files);
    tracer.missing := tracer.missing + outcome.missing;
    for i := 0 to |outcome.misc|
      invariant tracer.missing == old(tracer.missing) + outcome.missing
      invariant tracer.miscErrors == old(tracer.miscErrors) + outcome.misc[..i]
    {
      tracer.AppendMiscError(outcome.misc[i]);
    }
    assert outcome.misc[..|outcome.misc|] == outcome.misc;
    product := outcome.product;
  }

  /** A wet run repeats the dry run on the same files. */
  method RunWithValidation(tracer: Tracer, disk: Disk, gens: seq<Generator>, faults: nat -> Option<nat>)
    returns (sm: SourceModification, error: RunError)
    modifies tracer, disk
    ensures End(disk.files, tracer.missing, tracer.miscErrors, sm, error) ==
            RunFrom(old(disk.files), old(tracer.missing), old(tracer.miscErrors), gens, faults, NOTHING, 0)
  {
    sm, error := NOTHING, NoError;
    for i := 0 to |gens|
      invariant RunFrom(old(disk.files), old(tracer.missing), old(tracer.miscErrors), gens, faults, NOTHING, 0)
             == RunFrom(disk.files, tracer.missing, tracer.miscErrors, gens, faults, sm, i)
    {
      var dry := RunGenerator(tracer, disk, gens[i]);
      if dry.NotExist? {
        return sm, Validation;
      }
      if dry.Failure? {
        return sm, Failed;
      }
      var err := tracer.Err();
      if err.Some? {
        return sm, Placeholders;
      }
      sm := Classify(dry.files, disk.files);
      var wet := RunGenerator(tracer, disk, gens[i]);
      disk.Write(wet.files, Reached(wet.files, faults(i)));
      if faults(i).Some? {
        return sm, WetFailed;
      }
    }
  }

  // ----- What a run writes and reports -----

  lemma {:induction false} NamesHold(files: seq<(string, string)>, n: nat, name: string)
    requires n <= |files|
    ensures name in Names(files, n) <==> exists i :: 0 <= i < n && files[i].0 == name
  {
    if n > 0 {
      NamesHold(files, n - 1, name);
    }
  }

  /** A file of the run is reported as modified if it was there, and as created if it was not; no other is. */
  lemma ClassifiedMeans(files: seq<(string, string)>, disk: Files, name: string)
    ensures
      var sm, written := Classified(files, disk), exists i :: 0 <= i < |files| && files[i].0 == name;
      (name in sm.modified <==> written && name in disk) && (name in sm.created <==> written && name !in disk)
  {
    NamesHold(files, |files|, name);
  }

  /** The i-th file is the last of the first n with its name. */
  predicate LastNamed(files: seq<(string, string)>, n: nat, i: nat) {
    i < n <= |files| && forall j :: i < j < n ==> files[j].0 != files[i].0
  }

  /** A file holds what was written to it last, or what it held before. */
  lemma {:induction false} WrittenMeans(disk: Files, files: seq<(string, string)>, n: nat, name: string)
    requires n <= |files|
    ensures
      var after := Written(disk, files, n);
      && (forall i: nat :: LastNamed(files, n, i) && files[i].0 == name ==> name in after && after[name] == files[i].1)
      && ((forall i :: 0 <= i < n ==> files[i].0 != name) ==>
           (name in after <==> name in disk) && (name in disk ==> after[name] == disk[name]))
  {
    if n > 0 {
      WrittenMeans(disk, files, n - 1, name);
      forall i: nat | LastNamed(files, n, i) && files[i].0 == name && i < n - 1 ensures LastNamed(files, n - 1, i) {
      }
    }
  }

  // ----- Nothing is written without a clean dry run -----

  /** The dry run on these files succeeds and leaves nothing with the tracer. */
  predicate Clean(disk: Files, g: Generator) {
    g(disk).product.Produced? && g(disk).missing == {} && g(disk).misc == []
  }

  function Applied(disk: Files, g: Generator): Files {
    var product := g(disk).product;
    if product.Produced? then Written(disk, product.files, |product.files|) else disk
  }

  /** The disk after the first n generators. */
  function AfterFirst(disk: Files, gens: seq<Generator>, n: nat): Files
    requires n <= |gens|
  {
    if n == 0 then disk else Applied(AfterFirst(disk, gens, n - 1), gens[n - 1])
  }

  /** What the last of the first n generators changed. */
  function LastModification(disk: Files, gens: seq<Generator>, n: nat): SourceModification
    requires n <= |gens|
  {
    if n == 0 then NOTHING
    else
      var before := AfterFirst(disk, gens, n - 1);
      var product := gens[n - 1](before).product;
      if product.Produced? then Classified(product.files, before) else NOTHING
  }

  /** The k-th generator is clean where it runs, and its wet run works. */
  predicate CleanAt(disk: Files, gens: seq<Generator>, faults: nat -> Option<nat>, k: nat)
    requires k < |gens|
  {
    Clean(AfterFirst(disk, gens, k), gens[k]) && faults(k).None?
  }

  predicate AllClean(disk: Files, gens: seq<Generator>, faults: nat -> Option<nat>, n: nat)
    requires n <= |gens|
  {
    forall k :: 0 <= k < n ==> CleanAt(disk, gens, faults, k)
  }

  /** Why a generator that is not clean ends the run. */
  function Reason(now: Files, g: Generator): RunError {
    match g(now).product
    case NotExist => Validation
    case Failure => Failed
    case Produced(_) => Placeholders
  }

  /** How the run ends at a generator that finds these files. */
  predicate Stops(now: Files, g: Generator, fault: Option<nat>, end: End) {
    if Clean(now, g) then
      var files := g(now).product.files;
      && fault.Some? && end.error == WetFailed && end.disk == Written(now, files, Reached(files, fault))
      && end.missing == {} && end.misc == []
    else
      && end.error == Reason(now, g) && end.disk == now
      && end.missing == g(now).missing && end.misc == g(now).misc
  }

  /** The n-th generator is where the run ends, with what the one before changed unless a wet run failed. */
  predicate StopsAt(disk: Files, gens: seq<Generator>, faults: nat -> Option<nat>, n: nat, end: End)
    requires n <= |gens|
  {
    var now := AfterFirst(disk, gens, n);
    && AllClean(disk, gens, faults, n)
    && (if n == |gens| then end.error == NoError && end.disk == now else Stops(now, gens[n], faults(n), end))
    && (end.error != WetFailed ==> end.sm == LastModification(disk, gens, n))
  }

  /** One more clean generator, in full. */
  lemma CleanStep(disk: Files, gens: seq<Generator>, faults: nat -> Option<nat>, sm: SourceModification, i: nat)
    requires i < |gens| && CleanAt(disk, gens, faults, i)
    ensures RunFrom(AfterFirst(disk, gens, i), {}, [], gens, faults, sm, i) ==
            RunFrom(AfterFirst(disk, gens, i + 1), {}, [], gens, faults, LastModification(disk, gens, i + 1), i + 1)
  {
  }

  /** A generator that is not clean, or whose wet run fails. */
  lemma StopStep(now: Files, gens: seq<Generator>, faults: nat -> Option<nat>, sm: SourceModification, i: nat)
    requires i < |gens| && !(Clean(now, gens[i]) && faults(i).None?)
    ensures
      var end := RunFrom(now, {}, [], gens, faults, sm, i);
      Stops(now, gens[i], faults(i), end) && (end.error != WetFailed ==> end.sm == sm)
  {
  }

  /** The rest of the run, with a fresh tracer, after the first i generators. */
  function Rest(disk: Files, gens: seq<Generator>, faults: nat -> Option<nat>, i: nat): End
    requires i <= |gens|
  {
    RunFrom(AfterFirst(disk, gens, i), {}, [], gens, faults, LastModification(disk, gens, i), i)
  }

  lemma {:induction false} CleanSteps(disk: Files, gens: seq<Generator>, faults: nat -> Option<nat>, n: nat)
    requires n <= |gens| && AllClean(disk, gens, faults, n)
    ensures Rest(disk, gens, faults, 0) == Rest(disk, gens, faults, n)
  {
    if n > 0 {
      CleanSteps(disk, gens, faults, n - 1);
      CleanStep(disk, gens, faults, LastModification(disk, gens, n - 1), n - 1);
    }
  }

  lemma {:induction false} FirstStop(disk: Files, gens: seq<Generator>, faults: nat -> Option<nat>, m: nat)
    returns (n: nat)
    requires m <= |gens|
    ensures n <= m && AllClean(disk, gens, faults, n)
    ensures n < m ==> !CleanAt(disk, gens, faults, n)
  {
    n := 0;
    if m > 0 {
      n := FirstStop(disk, gens, faults, m - 1);
      if n == m - 1 && CleanAt(disk, gens, faults, n) {
        n := m;
      }
    }
  }

  /** With a fresh tracer: every generator before the one the run stops at was clean and is on the disk in
      full, one whose dry run fails or leaves something with the tracer writes nothing, and what is returned on
      success covers the last generator only. */
  lemma DryRunGatesWetRun(disk: Files, gens: seq<Generator>, faults: nat -> Option<nat>) returns (n: nat)
    ensures n <= |gens| && StopsAt(disk, gens, faults, n, RunFrom(disk, {}, [], gens, faults, NOTHING, 0))
  {
    n := FirstStop(disk, gens, faults, |gens|);
    CleanSteps(disk, gens, faults, n);
    if n < |gens| {
      StopStep(AfterFirst(disk, gens, n), gens, faults, LastModification(disk, gens, n), n);
    }
  }

  /** A single generator that fails before its wet run leaves the disk as it was. */
  lemma OneGeneratorIsAtomic(disk: Files, g: Generator, faults: nat -> Option<nat>)
    ensures
      var end := RunFrom(disk, {}, [], [g], faults, NOTHING, 0);
      end.error != NoError && end.error != WetFailed ==> end.disk == disk && end.sm == NOTHING
  {
  }
}
