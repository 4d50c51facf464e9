/** Properties of whole runs of the serve loop: which binary is started, and on which state. */
module ServeRuns {
  import opened Common
  import opened Serve

  // ----- The saved checksums describe a binary built from the saved source and config -----

  predicate SourceCoherent(c: Checksums) {
    c.binary.Some? ==> c.source.Some? && c.binary.value.Built? && c.binary.value.source == c.source.value
  }

  predicate Coherent(c: Checksums) {
    c.binary.Some? ==> c.source.Some? && c.config.Some? && c.binary.value == Built(c.source.value, c.config)
  }

  predicate BuiltFromSource(l: Launch) {
    l.binary.Some? && l.binary.value.Built? && l.binary.value.source == l.source
  }

  predicate BuiltFromProject(l: Launch) {
    l.binary == Some(Built(l.source, l.config))
  }

  /** The three checksums are saved together or not at all. */
  predicate WholeSaves(r: Round) {
    !Hits(r, SavingSource) && !Hits(r, SavingBinary)
  }

  /** A round, whatever it is given and wherever it fails, breaks the agreement of the saved source
      and binary exactly when the binary's save fails after a new source was saved. */
  lemma SourceCoherenceOfOneRound(w: World, reset: bool, r: Round)
    requires SourceCoherent(w.saved)
    ensures SourceCoherent(ServeOnceSpec(w, reset, r).0.saved)
       <==> !(Hits(r, SavingBinary) && SourceModified(w) && w.saved.binary.Some?)
  {
  }

  /** With a config file, the full agreement breaks exactly when a save fails between two new checksums. */
  lemma CoherenceOfOneRound(w: World, reset: bool, r: Round)
    requires Coherent(w.saved) && w.config.Some?
    ensures Coherent(ServeOnceSpec(w, reset, r).0.saved)
       <==> !(w.saved.binary.Some?
              && ((Hits(r, SavingSource) && ConfigModified(w))
                  || (Hits(r, SavingBinary) && (ConfigModified(w) || SourceModified(w)))))
  {
  }

  /** Any launch, after any third-party change of the binary, runs a binary built from the current source. */
  lemma LaunchIsCurrent(w: World, reset: bool, r: Round)
    requires SourceCoherent(w.saved)
    requires ServeOnceSpec(w, reset, r).1.launch.Some?
    ensures
      var l := ServeOnceSpec(w, reset, r).1.launch.value;
      && l.source == w.source && l.config == w.config && BuiltFromSource(l)
      && (Coherent(w.saved) && w.config.Some? ==> BuiltFromProject(l))
  {
  }

  predicate AllFromSource(m: Machine) {
    SourceCoherent(m.world.saved) && forall i :: 0 <= i < |m.log| ==> BuiltFromSource(m.log[i])
  }

  predicate AllFromProject(m: Machine) {
    Coherent(m.world.saved) && forall i :: 0 <= i < |m.log| ==> BuiltFromProject(m.log[i])
  }

  predicate Sound(ss: seq<Session>) {
    forall i, j :: 0 <= i < |ss| && 0 <= j < |ss[i].rounds| ==> WholeSaves(ss[i].rounds[j])
  }

  predicate AlwaysConfigured(ss: seq<Session>) {
    forall i, j :: 0 <= i < |ss| && 0 <= j < |ss[i].rounds| ==> ss[i].rounds[j].edit.config.Some?
  }

  lemma TurnKeepsSources(m: Machine, reset: bool, r: Round)
    requires WholeSaves(r) && AllFromSource(m)
    ensures AllFromSource(TurnSpec(m, reset, r).machine)
  {
    var w := AfterEdit(m.world, r.edit);
    SourceCoherenceOfOneRound(w, reset, r);
    if ServeOnceSpec(w, reset, r).1.launch.Some? {
      LaunchIsCurrent(w, reset, r);
    }
  }

  lemma TurnKeepsProjects(m: Machine, reset: bool, r: Round)
    requires WholeSaves(r) && AllFromProject(m) && r.edit.config.Some?
    ensures AllFromProject(TurnSpec(m, reset, r).machine)
  {
    var w := AfterEdit(m.world, r.edit);
    CoherenceOfOneRound(w, reset, r);
    if ServeOnceSpec(w, reset, r).1.launch.Some? {
      LaunchIsCurrent(w, reset, r);
    }
  }

  lemma {:induction false} RoundsKeepBinaries(m: Machine, force: bool, once: bool, rs: seq<Round>)
    requires forall j :: 0 <= j < |rs| ==> WholeSaves(rs[j])
    ensures AllFromSource(m) ==> AllFromSource(RoundsSpec(m, force, once, rs))
    ensures AllFromProject(m) && (forall j :: 0 <= j < |rs| ==> rs[j].edit.config.Some?)
        ==> AllFromProject(RoundsSpec(m, force, once, rs))
    decreases |rs|
  {
    if rs != [] {
      if AllFromSource(m) {
        TurnKeepsSources(m, force || once, rs[0]);
      }
      if AllFromProject(m) && rs[0].edit.config.Some? {
        TurnKeepsProjects(m, force || once, rs[0]);
      }
      RoundsKeepBinaries(TurnSpec(m, force || once, rs[0]).machine, force, false, rs[1..]);
    }
  }

  /** Over every run of sessions - any edits, resets, failed steps, stops and foreign binaries - in which
      the checksums are saved as a whole, each started app was built from the source of its round, and
      also from its config when there always is a config file. */
  lemma {:induction false} EveryLaunchIsCurrent(m: Machine, ss: seq<Session>)
    requires Sound(ss)
    ensures AllFromSource(m) ==> AllFromSource(SessionsSpec(m, ss))
    ensures AllFromProject(m) && AlwaysConfigured(ss) ==> AllFromProject(SessionsSpec(m, ss))
    decreases |ss|
  {
    if ss != [] {
      var s := ss[0];
      assert forall j :: 0 <= j < |s.rounds| ==> WholeSaves(ss[0].rounds[j]);
      assert AlwaysConfigured(ss) ==> forall j :: 0 <= j < |s.rounds| ==> ss[0].rounds[j].edit.config.Some?;
      RoundsKeepBinaries(m.(served := false), s.forceReset, s.resetOnce, s.rounds);
      assert forall i, j :: 0 <= i < |ss[1..]| && 0 <= j < |ss[1..][i].rounds| ==>
        ss[1..][i].rounds[j] == ss[i + 1].rounds[j];
      EveryLaunchIsCurrent(SessionSpec(m, s), ss[1..]);
    }
  }

  function PlainRound(s: Version, c: Version, b: Option<Binary>, fault: Option<Fault>): Round {
    Round(Edit(s, Some(c), b), fault, 0, Stop(Some(Canceled), true, 0), true)
  }

  /** A round whose last checksum save fails, and one whose import fails: neither error is a cancellation. */
  function HalfSaved(s: Version, c: Version, b: Option<Binary>): Round {
    PlainRound(s, c, b, Some(Fault(SavingBinary, OtherFailure, false)))
  }

  function FailedImport(s: Version, c: Version, b: Option<Binary>): Round {
    PlainRound(s, c, b, Some(Fault(Importing, OtherFailure, false)))
  }

  /** A process that handles one refresh token. */
  function OneRound(r: Round): Session {
    Session(false, false, [r])
  }

  /** A first run of the tool builds s0 and leaves its checksums, a chain home and an exported state. */
  lemma FirstRound(w: World, s0: Version, c: Version)
    requires w.saved == Checksums(None, None, None)
    ensures
      var b0 := Some(Built(s0, Some(c)));
      var m := TurnSpec(Machine(w, false, []), false, PlainRound(s0, c, None, None)).machine;
      && |m.log| == 1 && m.world.saved == Checksums(Some(c), Some(s0), b0)
      && m.world.initialized && m.world.exported.Some?
  {
  }

  /** A run for s1 whose last save fails, and which gives up, leaves the checksum of s1 beside the one of b0. */
  lemma HalfSavedRound(m: Machine, s1: Version, c: Version, b0: Option<Binary>)
    requires m.world.initialized && m.world.exported.Some? && b0.Some?
    requires m.world.saved.config == Some(c) && m.world.saved.source != Some(s1) && m.world.saved.binary == b0
    ensures
      var t := TurnSpec(m, false, HalfSaved(s1, c, b0));
      && t.halt && t.machine.log == m.log && t.machine.world.saved == Checksums(Some(c), Some(s1), b0)
      && t.machine.world.initialized && t.machine.world.exported.Some?
  {
  }

  /** A run for s0 whose import fails, and which gives up, leaves the binary b0 on the disk. */
  lemma FailedImportRound(m: Machine, s0: Version, s1: Version, c: Version, b1: Option<Binary>, b0: Option<Binary>)
    requires m.world.initialized && m.world.exported.Some? && b1.Some? && s0 != s1
    requires m.world.saved == Checksums(Some(c), Some(s1), b0) && b0 == Some(Built(s0, Some(c)))
    ensures
      var t := TurnSpec(m, false, FailedImport(s0, c, b1));
      && t.halt && t.machine.log == m.log
      && t.machine.world.saved == m.world.saved && t.machine.world.binary == b0 && t.machine.world.initialized
  {
  }

  /** Back at s1, its checksum and the one of b0 are both met, and b0 is started. */
  lemma StaleRound(m: Machine, s1: Version, c: Version, b0: Option<Binary>)
    requires m.world.initialized && m.world.saved == Checksums(Some(c), Some(s1), b0) && b0.Some?
    ensures
      var t := TurnSpec(m, false, PlainRound(s1, c, b0, None));
      && |t.machine.log| == |m.log| + 1
      && t.machine.log[|m.log|].source == s1 && t.machine.log[|m.log|].binary == b0
  {
  }

  lemma NextRound(m: Machine, force: bool, once: bool, r: Round, rs: seq<Round>)
    requires !TurnSpec(m, force || once, r).halt
    ensures RoundsSpec(m, force, once, [r] + rs) ==
            RoundsSpec(TurnSpec(m, force || once, r).machine, force, false, rs)
  {
    assert ([r] + rs)[1..] == rs;
  }

  lemma LastRound(m: Machine, force: bool, once: bool, r: Round)
    ensures RoundsSpec(m, force, once, [r]) == TurnSpec(m, force || once, r).machine
  {
    assert [r][1..] == [];
  }

  lemma NextSession(m: Machine, r: Round, ss: seq<Session>)
    ensures SessionsSpec(m, [OneRound(r)] + ss) == SessionsSpec(TurnSpec(m.(served := false), false, r).machine, ss)
  {
    LastRound(m.(served := false), false, false, r);
    assert ([OneRound(r)] + ss)[1..] == ss;
  }

  lemma NoSession(m: Machine)
    ensures SessionsSpec(m, []) == m
  {
  }

  /** Why the checksums must be saved as a whole: the tool is run four times, the binary's save fails in the
      run for source s1 and the import in the next one for source s0 - either makes the tool give up - and
      then, back at s1, the binary built from s0 is started. */
  lemma SplitSaveCanStartStaleBinary(w: World, s0: Version, s1: Version, c: Version)
    requires s0 != s1 && w.saved == Checksums(None, None, None)
    ensures
      var b0, b1 := Some(Built(s0, Some(c))), Some(Built(s1, Some(c)));
      var r0, r1 := PlainRound(s0, c, None, None), HalfSaved(s1, c, b0);
      var r2, r3 := FailedImport(s0, c, b1), PlainRound(s1, c, b0, None);
      var runs := [OneRound(r0)] + ([OneRound(r1)] + ([OneRound(r2)] + ([OneRound(r3)] + [])));
      var log := SessionsSpec(Machine(w, false, []), runs).log;
      |log| == 2 && log[1].source == s1 && log[1].binary == b0 && !BuiltFromSource(log[1])
  {
    var b0, b1 := Some(Built(s0, Some(c))), Some(Built(s1, Some(c)));
    var r0, r1 := PlainRound(s0, c, None, None), HalfSaved(s1, c, b0);
    var r2, r3 := FailedImport(s0, c, b1), PlainRound(s1, c, b0, None);
    var m0 := Machine(w, false, []);
    FirstRound(w, s0, c);
    NextSession(m0, r0, [OneRound(r1)] + ([OneRound(r2)] + ([OneRound(r3)] + [])));
    var m1 := TurnSpec(m0, false, r0).machine;
    HalfSavedRound(m1.(served := false), s1, c, b0);
    NextSession(m1, r1, [OneRound(r2)] + ([OneRound(r3)] + []));
    var m2 := TurnSpec(m1.(served := false), false, r1).machine;
    FailedImportRound(m2.(served := false), s0, s1, c, b1, b0);
    NextSession(m2, r2, [OneRound(r3)] + []);
    var m3 := TurnSpec(m2.(served := false), false, r2).machine;
    StaleRound(m3.(served := false), s1, c, b0);
    NextSession(m3, r3, []);
    NoSession(TurnSpec(m3.(served := false), false, r3).machine);
  }

  // ----- What a failed build leaves behind -----

  function Quiet(w: World, r: Round): Round {
    r.(edit := Edit(w.source, w.config, w.binary), fault := None)
  }

  lemma FailedBuildRound(m: Machine, r: Round)
    requires Hits(r, Building) && r.fault.value.kind.BuildFailure?
    ensures TurnSpec(m, true, r) == Turn(Machine(AfterEdit(m.world, r.edit), m.served, m.log), false)
  {
  }

  /** A round without edits or failures: what it starts, and on which state. */
  lemma QuietRound(m: Machine, reset: bool, r: Round)
    ensures
      var w, log := m.world, TurnSpec(m, reset, Quiet(m.world, r)).machine.log;
      && |log| == |m.log| + 1
      && log[|m.log|].state ==
           (match PlanFor(w, reset)
            case Initialize => r.freshGenesis
            case Restore => w.exported.value
            case Restart => Boot(w))
      && log[|m.log|].binary == (if NeedsBuild(w, reset) then Some(Built(w.source, w.config)) else w.binary)
  {
    assert AfterEdit(m.world, Quiet(m.world, r).edit) == m.world;
  }

  /** A failed build changes nothing on disk, so the next round builds again exactly when the project or
      the binary differs from the checksums: a reset that was asked for once is forgotten. */
  lemma FailedBuildIsRetried(m: Machine, force: bool, r: Round, r': Round)
    requires Hits(r, Building) && r.fault.value.kind.BuildFailure?
    ensures
      var w := AfterEdit(m.world, r.edit);
      var next := RoundsSpec(m, force, true, [r] + [Quiet(w, r')]);
      && |next.log| == |m.log| + 1
      && next.log[|m.log|].state ==
           (match PlanFor(w, force)
            case Initialize => r'.freshGenesis
            case Restore => w.exported.value
            case Restart => Boot(w))
      && next.log[|m.log|].binary == (if NeedsBuild(w, force) then Some(Built(w.source, w.config)) else w.binary)
  {
    var w := AfterEdit(m.world, r.edit);
    FailedBuildRound(m, r);
    NextRound(m, force, true, r, [Quiet(w, r')]);
    LastRound(Machine(w, m.served, m.log), force, false, Quiet(w, r'));
    QuietRound(Machine(w, m.served, m.log), force, r');
  }

  // ----- What one round comes to -----

  /** The source or the binary is not the one whose checksum was saved. */
  predicate NewApp(w: World) {
    w.saved.source != Some(w.source) || w.binary.None? || w.saved.binary != w.binary
  }

  /** The chain home is made anew: a reset, no home, another config, or a new app with nothing exported. */
  predicate Afresh(w: World, reset: bool) {
    || reset || !w.initialized || (w.config.Some? && w.saved.config != w.config)
    || (NewApp(w) && w.exported.None?)
  }

  /** The project as the round finds it. */
  function Project(w: World, e: Edit): World {
    World(e.source, e.config, e.binary, w.saved, w.initialized, w.db, w.genesis, w.exported)
  }

  /** The genesis an undisturbed round starts from. */
  function StartGenesis(w: World, reset: bool, r: Round): AppState {
    if Afresh(w, reset) then r.freshGenesis else if NewApp(w) then w.exported.value else w.genesis
  }

  function StartBinary(w: World, reset: bool): Option<Binary> {
    if Afresh(w, reset) || NewApp(w) then Some(Built(w.source, w.config)) else w.binary
  }

  /** A launch of this project, on what it was started on. */
  predicate Starts(l: Launch, w: World, reset: bool, r: Round) {
    && l.source == w.source && l.config == w.config && l.binary == StartBinary(w, reset) && l.stop == r.stop
    && l.state == if Afresh(w, reset) || NewApp(w) || w.db.None? then StartGenesis(w, reset, r) else w.db.value
  }

  lemma UndisturbedWorld(w: World, reset: bool, r: Round)
    requires r.fault.None?
    ensures
      ServeOnceSpec(w, reset, r).0 ==
      World(w.source, w.config, StartBinary(w, reset),
            Checksums(if w.config.Some? then w.config else w.saved.config, Some(w.source), StartBinary(w, reset)),
            true, Some(r.stop.final), StartGenesis(w, reset, r), w.exported)
  {
  }

  lemma UndisturbedLaunch(w: World, reset: bool, r: Round)
    requires r.fault.None?
    ensures
      var report := ServeOnceSpec(w, reset, r).1;
      report.err == r.stop.kind && report.launch.Some? && Starts(report.launch.value, w, reset, r)
  {
  }

  /** A round in which no step fails, whatever the project and the home are: it starts the app on the fresh
      genesis when the home is made anew, else on the exported one when the app is new, else on the database - or
      on the genesis, if there is none. */
  lemma UndisturbedRound(m: Machine, reset: bool, r: Round)
    requires r.fault.None?
    ensures
      var log := TurnSpec(m, reset, r).machine.log;
      |log| == |m.log| + 1 && log[..|m.log|] == m.log && Starts(log[|m.log|], Project(m.world, r.edit), reset, r)
  {
    UndisturbedLaunch(Project(m.world, r.edit), reset, r);
  }

  /** A reset starts the app on the fresh genesis, whatever was saved or exported. */
  lemma ResetStartsAfresh(m: Machine, resetOnce: bool, force: bool, r: Round)
    requires r.fault.None? && (resetOnce || force)
    ensures
      var log := RoundsSpec(m, force, resetOnce, [r]).log;
      |log| == |m.log| + 1 && log[|m.log|].state == r.freshGenesis
  {
    LastRound(m, force, resetOnce, r);
    UndisturbedRound(m, true, r);
  }

  /** The step is taken in this round, so its failure is one of the round. */
  predicate Reached(w: World, reset: bool, stage: Stage) {
    match stage
    case Preparing => true
    case Building => Afresh(w, reset) || NewApp(w)
    case Initializing => Afresh(w, reset)
    case Resetting => !Afresh(w, reset) && NewApp(w)
    case Importing => !Afresh(w, reset) && NewApp(w)
    case SavingConfig => w.config.Some?
    case SavingSource => true
    case SavingBinary => true
  }

  /** The failure of a step that is not taken goes unnoticed; one that is taken is the error of the round, which
      starts nothing. */
  lemma FaultOfRound(w: World, reset: bool, r: Round)
    requires r.fault.Some?
    ensures
      var f := r.fault.value;
      if Reached(w, reset, f.stage) then ServeOnceSpec(w, reset, r).1 == Report(Some(f.kind), None)
      else ServeOnceSpec(w, reset, r) == ServeOnceSpec(w, reset, r.(fault := None))
  {
  }

  /** The checksums that are saved before the step fails: none, the config's, or the config's and the source's. */
  function SavedBefore(w: World, stage: Stage): Checksums {
    var config := if w.config.Some? then w.config else w.saved.config;
    match stage
    case SavingSource => w.saved.(config := config)
    case SavingBinary => w.saved.(config := config, source := Some(w.source))
    case _ => w.saved
  }

  /** What a round leaves on the disk when a step of it fails: a failed save comes after the home was prepared, a
      failed import after it was emptied, a failed reset or init may have emptied it, and the rest changed nothing
      of it. The exported state always stays. */
  lemma DiskAfterFault(w: World, reset: bool, r: Round)
    requires r.fault.Some? && Reached(w, reset, r.fault.value.stage)
    ensures
      var stage, half := r.fault.value.stage, r.fault.value.partial;
      var saving := stage in {SavingConfig, SavingSource, SavingBinary};
      var emptied := stage == Importing || (half && (stage == Initializing || stage == Resetting));
      ServeOnceSpec(w, reset, r).0 ==
      World(w.source, w.config, if stage == Preparing || stage == Building then w.binary else StartBinary(w, reset),
            SavedBefore(w, stage),
            if saving then true else w.initialized && !(half && stage == Initializing),
            if emptied || (saving && (Afresh(w, reset) || NewApp(w))) then None else w.db,
            if saving then StartGenesis(w, reset, r) else w.genesis,
            w.exported)
  {
    match r.fault.value.stage
    case Preparing =>
    case Building =>
    case Initializing =>
    case Resetting =>
    case Importing =>
    case SavingConfig =>
    case SavingSource =>
    case SavingBinary =>
  }

  /** The loop goes on after a round, and when it does: not after an error that is neither a cancellation nor a
      failed build, and not after an export that fails. */
  lemma LoopGoesOn(m: Machine, force: bool, once: bool, r: Round, rs: seq<Round>)
    ensures
      var (w, report) := ServeOnceSpec(Project(m.world, r.edit), force || once, r);
      var served := m.served || (report.launch.Some? && r.stop.served);
      var ends := report.err.Some?
                  && (report.err.value in {StartFailure, OtherFailure}
                      || (report.err.value == Canceled && served && !r.exportOk));
      var exports := report.err == Some(Canceled) && served;
      var state := if w.db.Some? then w.db else Some(w.genesis);
      var next := Machine(if exports && r.exportOk then w.(exported := state) else w,
                          served && !exports,
                          if report.launch.Some? then m.log + [report.launch.value] else m.log);
      RoundsSpec(m, force, once, [r] + rs) == if ends then next else RoundsSpec(next, force, false, rs)
  {
    assert ([r] + rs)[1..] == rs;
  }

  // ----- The state of the app survives -----

  predicate Steady(w: World, e: Edit) {
    e.config == w.config && e.binary == w.binary
  }

  predicate CleanStop(r: Round) {
    r.stop.kind == Some(Canceled) && r.stop.served && r.exportOk
  }

  /** A restore fails with the database empty, before the exported genesis takes its place. */
  predicate InterruptsRestore(w: World, r: Round) {
    Hits(r, Importing) || (Hits(r, Resetting) && (r.fault.value.partial || w.db.None?))
  }

  /** What the rounds of a run must satisfy: only sources are edited once an app has run, apps are
      stopped by cancellation, and a restore is interrupted only in a round with a new source. */
  predicate Careful(m: Machine, r: Round) {
    && (m.log != [] ==> Steady(m.world, r.edit))
    && CleanStop(r) && WholeSaves(r)
    && (InterruptsRestore(m.world, r) ==> SourceModified(AfterEdit(m.world, r.edit)))
  }

  predicate CarefulRounds(m: Machine, rs: seq<Round>)
    decreases |rs|
  {
    rs == [] || (Careful(m, rs[0])
                 && (TurnSpec(m, false, rs[0]).halt || CarefulRounds(TurnSpec(m, false, rs[0]).machine, rs[1..])))
  }

  predicate CarefulSessions(m: Machine, ss: seq<Session>)
    decreases |ss|
  {
    ss == [] || (!ss[0].forceReset && !ss[0].resetOnce
                 && CarefulRounds(m.(served := false), ss[0].rounds)
                 && CarefulSessions(SessionSpec(m, ss[0]), ss[1..]))
  }

  /** The next app to start on this world comes up with state `last`. */
  predicate Recoverable(w: World, last: AppState) {
    && w.initialized && !ConfigModified(w) && w.exported == Some(last) && SourceCoherent(w.saved)
    && (if w.db.Some? then w.db.value == last else w.genesis == last || BinaryModified(w))
  }

  /** Every start resumes from the state of the stop before it. */
  predicate Chained(log: seq<Launch>) {
    forall k :: 0 < k < |log| ==> log[k].state == log[k - 1].stop.final
  }

  predicate Preserving(m: Machine) {
    && !m.served && SourceCoherent(m.world.saved) && Chained(m.log)
    && (m.log != [] ==> Recoverable(m.world, m.log[|m.log| - 1].stop.final))
  }

  lemma RecoverableRound(w: World, r: Round, last: AppState)
    requires Recoverable(w, last) && WholeSaves(r)
    requires InterruptsRestore(w, r) ==> SourceModified(w)
    ensures
      var (w', report) := ServeOnceSpec(w, false, r);
      && (report.launch.None? ==> Recoverable(w', last))
      && (report.launch.Some? ==> report.launch.value.state == last)
  {
  }

  lemma CleanTurn(m: Machine, r: Round)
    requires !m.served && CleanStop(r)
    ensures
      var (w, report) := ServeOnceSpec(AfterEdit(m.world, r.edit), false, r);
      TurnSpec(m, false, r).machine ==
        if report.launch.None? then Machine(w, false, m.log)
        else Machine(w.(exported := Some(Boot(w))), false, m.log + [report.launch.value])
  {
  }

  /** An app that was stopped and exported can be started again on the state it stopped in. */
  lemma StoppedIsRecoverable(w: World, r: Round)
    requires SourceCoherent(w.saved) && WholeSaves(r) && ServeOnceSpec(w, false, r).1.launch.Some?
    ensures
      var (w', report) := ServeOnceSpec(w, false, r);
      && Recoverable(w'.(exported := Some(Boot(w'))), r.stop.final)
      && report.launch.value.stop == r.stop
  {
    SourceCoherenceOfOneRound(w, false, r);
  }

  lemma TurnPreserves(m: Machine, r: Round)
    requires Preserving(m) && Careful(m, r)
    ensures Preserving(TurnSpec(m, false, r).machine)
  {
    var w := AfterEdit(m.world, r.edit);
    CleanTurn(m, r);
    SourceCoherenceOfOneRound(w, false, r);
    if m.log != [] {
      var last := m.log[|m.log| - 1].stop.final;
      assert Recoverable(w, last);
      RecoverableRound(w, r, last);
    }
    if ServeOnceSpec(w, false, r).1.launch.Some? {
      StoppedIsRecoverable(w, r);
    }
  }

  lemma {:induction false} RoundsPreserve(m: Machine, rs: seq<Round>)
    requires Preserving(m) && CarefulRounds(m, rs)
    ensures Preserving(RoundsSpec(m, false, false, rs))
    decreases |rs|
  {
    if rs != [] {
      TurnPreserves(m, rs[0]);
      if !TurnSpec(m, false, rs[0]).halt {
        RoundsPreserve(TurnSpec(m, false, rs[0]).machine, rs[1..]);
      }
    }
  }

  /** Over every careful run, across rounds and restarts of the tool, with any failed builds, interrupted
      steps and failed saves, the app always resumes from the state of the preceding stop. */
  lemma {:induction false} StateSurvives(m: Machine, ss: seq<Session>)
    requires Preserving(m) && CarefulSessions(m, ss)
    ensures Preserving(SessionsSpec(m, ss))
    ensures Chained(SessionsSpec(m, ss).log)
    decreases |ss|
  {
    if ss != [] {
      RoundsPreserve(m.(served := false), ss[0].rounds);
      StateSurvives(SessionSpec(m, ss[0]), ss[1..]);
    }
  }

  /** The condition on interrupted restores is exact: after one, the next undisturbed start recovers the
      state if and only if the source had changed or the current genesis already holds the state. */
  lemma InterruptedRestoreLosesState(w: World, r: Round, next: Round, last: AppState)
    requires Recoverable(w, last) && Coherent(w.saved) && w.saved.binary.Some? && w.config.Some?
    requires PlanFor(w, false).Restore? && InterruptsRestore(w, r)
    ensures
      var w' := ServeOnceSpec(w, false, r).0;
      var report := ServeOnceSpec(w', false, Quiet(w', next)).1;
      report.launch.Some? && (report.launch.value.state == last <==> SourceModified(w) || w.genesis == last)
  {
  }

  /** The stop of an app is followed by an export of its state. */
  predicate Exports(m: Machine, r: Round) {
    r.stop.kind == Some(Canceled) && (m.served || r.stop.served) && r.exportOk
  }

  /** The round of an app that is not exported: it is started, and what was exported before stays. */
  lemma UnexportedRound(m: Machine, r: Round, last: AppState)
    requires Recoverable(m.world, last) && m.world.config.Some? && Steady(m.world, r.edit)
    requires r.fault.None? && !Exports(m, r)
    ensures
      var now := TurnSpec(m, false, r).machine;
      && |now.log| == |m.log| + 1 && now.log[|m.log|].stop == r.stop
      && now.world.db == Some(r.stop.final) && now.world.exported == Some(last) && now.world.initialized
      && now.world.binary.Some?
      && now.world.saved == Checksums(m.world.config, Some(r.edit.source), now.world.binary)
  {
  }

  /** The round after it: a new source restores what was exported, the same one starts on the database. */
  lemma RoundAfterUnexported(m: Machine, r: Round, final: AppState, last: AppState)
    requires m.world.exported == Some(last) && m.world.initialized && m.world.db == Some(final)
    requires m.world.saved.config == r.edit.config && m.world.saved.binary == r.edit.binary && r.edit.binary.Some?
    requires r.fault.None?
    ensures
      var log := TurnSpec(m, false, r).machine.log;
      && |log| == |m.log| + 1 && log[..|m.log|] == m.log
      && log[|m.log|].state == if m.world.saved.source == Some(r.edit.source) then final else last
  {
  }

  /** An undisturbed round in which only the source may have changed. */
  predicate OnlySource(w: World, r: Round) {
    r.fault.None? && r.edit.config == w.config && r.edit.binary == w.binary
  }

  /** However an app ends whose state is not exported - by itself, with an error, cancelled before it was served,
      or cancelled with an export that fails - the next undisturbed start, of this process or another one, comes
      up with the state it ended in if and only if the source is the same or the state before was the same. */
  lemma UnexportedStopSurvives(m: Machine, r: Round, served: bool, r': Round, last: AppState)
    requires Recoverable(m.world, last) && m.world.config.Some? && Steady(m.world, r.edit)
    requires r.fault.None? && !Exports(m, r)
    requires OnlySource(TurnSpec(m, false, r).machine.world, r')
    ensures
      var log := TurnSpec(TurnSpec(m, false, r).machine.(served := served), false, r').machine.log;
      && |log| == |m.log| + 2 && log[|m.log|].stop == r.stop
      && (log[|m.log| + 1].state == r.stop.final <==> r'.edit.source == r.edit.source || last == r.stop.final)
      && (r'.edit.source != r.edit.source ==> log[|m.log| + 1].state == last)
  {
    UnexportedRound(m, r, last);
    TurnKeepsConfig(m, r);
    RoundAfterUnexported(TurnSpec(m, false, r).machine.(served := served), r', r.stop.final, last);
  }

  lemma ConfigStays(w: World, r: Round)
    ensures ServeOnceSpec(w, false, r).0.config == w.config
  {
  }

  lemma TurnKeepsConfig(m: Machine, r: Round)
    ensures TurnSpec(m, false, r).machine.world.config == r.edit.config
  {
    ConfigStays(AfterEdit(m.world, r.edit), r);
  }

  /** When a started app ends by itself, or with a build failure because the faucet does, a change of the source
      in the next round brings back the state of the stop before it. */
  lemma FaucetFailureLosesState(m: Machine, r: Round, r': Round, last: AppState)
    requires Recoverable(m.world, last) && m.world.config.Some?
    requires Steady(m.world, r.edit) && r.fault.None? && r.stop.kind in {None, Some(BuildFailure)}
    requires r'.edit == Edit(r'.edit.source, r.edit.config, TurnSpec(m, false, r).machine.world.binary)
    requires r'.edit.source != r.edit.source && r'.fault.None?
    ensures
      var log := RoundsSpec(m, false, false, [r, r']).log;
      && |log| == |m.log| + 2
      && log[|m.log|].stop.final == r.stop.final
      && log[|m.log| + 1].state == last
  {
    var m' := TurnSpec(m, false, r).machine;
    TurnKeepsConfig(m, r);
    UnexportedStopSurvives(m, r, m'.served, r', last);
    NextRound(m, false, false, r, [r']);
    assert [r] + [r'] == [r, r'];
    LastRound(m', false, false, r');
  }
}
