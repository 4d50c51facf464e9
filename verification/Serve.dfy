/**
  The serve loop of the chain service: build, initialise or restore, start, and save the state
  when the app is cancelled.

  Sources, configurations and app states are opaque versions, and a checksum is identified with
  the version it was computed from. Everything the outside world decides (an edit between two
  rounds, a step that fails, the state the running app reaches) is an input of the round.
 */
module Serve {
  import opened Common

  type Version = nat
  type AppState = nat

  /** The app binary found on the PATH: one this tool built, or one a third party put there. */
  datatype Binary = Built(source: Version, config: Option<Version>) | Foreign(id: nat)

  /** The three checksums kept in the "serve.dirchange" cache namespace. */
  datatype Checksums = Checksums(config: Option<Version>, source: Option<Version>, binary: Option<Binary>)

  /** What survives a restart of the tool: the project, the chain home and the checksum cache. */
  datatype World = World(
    source: Version,
    config: Option<Version>,
    binary: Option<Binary>,
    saved: Checksums,
    initialized: bool,
    db: Option<AppState>,
    genesis: AppState,
    exported: Option<AppState>)

  /** How the serve loop classifies the error a round ends with. */
  datatype ErrorKind = Canceled | BuildFailure | StartFailure | OtherFailure

  datatype Stage = Preparing | Building | Initializing | Resetting | Importing
                 | SavingConfig | SavingSource | SavingBinary

  /** A step that fails; `partial` says whether it wiped the data it was about to replace. */
  datatype Fault = Fault(stage: Stage, kind: ErrorKind, partial: bool)

  /** How a started app ends: the error if there is one, whether it was marked as served, the state it reached. */
  datatype Stop = Stop(kind: Option<ErrorKind>, served: bool, final: AppState)

  datatype Edit = Edit(source: Version, config: Option<Version>, binary: Option<Binary>)

  /** One refresh token, with everything the outside world does before and during its round. */
  datatype Round = Round(
    edit: Edit,
    fault: Option<Fault>,
    freshGenesis: AppState,
    stop: Stop,
    exportOk: bool)

  /** One run of the serve command. */
  datatype Session = Session(forceReset: bool, resetOnce: bool, rounds: seq<Round>)

  /** One start of the app: what was on disk at that moment and the state it came up with. */
  datatype Launch = Launch(
    source: Version,
    config: Option<Version>,
    binary: Option<Binary>,
    state: AppState,
    stop: Stop)

  datatype Report = Report(err: Option<ErrorKind>, launch: Option<Launch>)

  /** The persistent world, the in-memory `served` flag and the history of launches. */
  datatype Machine = Machine(world: World, served: bool, log: seq<Launch>)

  // ----- Decisions -----

  predicate ConfigModified(w: World) {
    w.config.Some? && w.saved.config != w.config
  }

  predicate SourceModified(w: World) {
    w.saved.source != Some(w.source)
  }

  predicate BinaryModified(w: World) {
    w.binary.None? || w.saved.binary != w.binary
  }

  predicate AppModified(w: World) {
    SourceModified(w) || BinaryModified(w)
  }

  predicate StaysInitialized(w: World, reset: bool) {
    w.initialized && !reset && !ConfigModified(w)
  }

  predicate NeedsBuild(w: World, reset: bool) {
    !StaysInitialized(w, reset) || AppModified(w)
  }

  datatype Plan = Initialize | Restore | Restart

  function PlanFor(w: World, reset: bool): Plan {
    if !StaysInitialized(w, reset) || (AppModified(w) && w.exported.None?) then Initialize
    else if AppModified(w) then Restore
    else Restart
  }

  /** The state an app started on this world comes up with. */
  function Boot(w: World): AppState {
    if w.db.Some? then w.db.value else w.genesis
  }

  // ----- One call of serve -----

  predicate Hits(r: Round, stage: Stage) {
    r.fault.Some? && r.fault.value.stage == stage
  }

  function AfterEdit(w: World, e: Edit): World {
    w.(source := e.source, config := e.config, binary := e.binary)
  }

  function AfterBuild(w: World, reset: bool): World {
    if NeedsBuild(w, reset) then w.(binary := Some(Built(w.source, w.config))) else w
  }

  function WithSavedConfig(w: World): World {
    if w.config.Some? then w.(saved := w.saved.(config := w.config)) else w
  }

  function WithSavedSource(w: World): World {
    w.(saved := w.saved.(source := Some(w.source)))
  }

  function WithSavedBinary(w: World): World {
    w.(saved := w.saved.(binary := w.binary))
  }

  /** Initialising, restoring or leaving the chain home alone; None when the step succeeds. */
  function AfterPlan(w: World, plan: Plan, r: Round): (World, Option<ErrorKind>)
    requires plan.Restore? ==> w.exported.Some?
  {
    match plan
    case Restart => (w, None)
    case Initialize =>
      if Hits(r, Initializing) then
        (if r.fault.value.partial then w.(initialized := false, db := None) else w, Some(r.fault.value.kind))
      else
        (w.(initialized := true, db := None, genesis := r.freshGenesis), None)
    case Restore =>
      if Hits(r, Resetting) then
        (if r.fault.value.partial then w.(db := None) else w, Some(r.fault.value.kind))
      else if Hits(r, Importing) then
        (w.(db := None), Some(r.fault.value.kind))
      else
        (w.(db := None, genesis := w.exported.value), None)
  }

  function AfterSaves(w: World, r: Round): (World, Option<ErrorKind>) {
    if Hits(r, SavingConfig) && w.config.Some? then (w, Some(r.fault.value.kind))
    else
      var w1 := WithSavedConfig(w);
      if Hits(r, SavingSource) then (w1, Some(r.fault.value.kind))
      else
        var w2 := WithSavedSource(w1);
        if Hits(r, SavingBinary) then (w2, Some(r.fault.value.kind)) else (WithSavedBinary(w2), None)
  }

  function LaunchOn(w: World, r: Round): Launch {
    Launch(w.source, w.config, w.binary, Boot(w), r.stop)
  }

  /** One call of serve on the edited world. */
  function ServeOnceSpec(w: World, reset: bool, r: Round): (World, Report) {
    if Hits(r, Preparing) || (Hits(r, Building) && NeedsBuild(w, reset)) then
      (w, Report(Some(r.fault.value.kind), None))
    else
      var (w1, err1) := AfterPlan(AfterBuild(w, reset), PlanFor(w, reset), r);
      if err1.Some? then (w1, Report(err1, None))
      else
        var (w2, err2) := AfterSaves(w1, r);
        if err2.Some? then (w2, Report(err2, None))
        else (w2.(db := Some(r.stop.final)), Report(r.stop.kind, Some(LaunchOn(w2, r))))
  }

  // ----- The loop -----

  datatype Turn = Turn(machine: Machine, halt: bool)

  /** What the loop does with the error of a round, and whether it gives up. */
  function Concluded(m: Machine, err: Option<ErrorKind>, exportOk: bool): (Machine, bool) {
    match err
    case None => (m, false)
    case Some(Canceled) =>
      if !m.served then (m, false)
      else if !exportOk then (m.(served := false), true)
      else (m.(served := false, world := m.world.(exported := Some(Boot(m.world)))), false)
    case Some(BuildFailure) => (m, false)
    case Some(_) => (m, true)
  }

  /** One refresh token: edit, serve, then save the state of a cancelled app or give up. */
  function TurnSpec(m: Machine, reset: bool, r: Round): Turn {
    var (w, report) := ServeOnceSpec(AfterEdit(m.world, r.edit), reset, r);
    var served := m.served || (report.launch.Some? && r.stop.served);
    var log := if report.launch.Some? then m.log + [report.launch.value] else m.log;
    var (m', halt) := Concluded(Machine(w, served, log), report.err, r.exportOk);
    Turn(m', halt)
  }

  /** The loop over the refresh tokens; `resetOnce` holds for the first round only. */
  function RoundsSpec(m: Machine, forceReset: bool, resetOnce: bool, rounds: seq<Round>): Machine
    decreases |rounds|
  {
    if rounds == [] then m
    else
      var t := TurnSpec(m, forceReset || resetOnce, rounds[0]);
      if t.halt then t.machine else RoundsSpec(t.machine, forceReset, false, rounds[1..])
  }

  /** A new process forgets the `served` flag and nothing else. */
  function SessionSpec(m: Machine, s: Session): Machine {
    RoundsSpec(m.(served := false), s.forceReset, s.resetOnce, s.rounds)
  }

  function SessionsSpec(m: Machine, ss: seq<Session>): Machine
    decreases |ss|
  {
    if ss == [] then m else SessionsSpec(SessionSpec(m, ss[0]), ss[1..])
  }

  class Chain {
    var source: Version
    var config: Option<Version>
    var binary: Option<Binary>
    var savedConfig: Option<Version>
    var savedSource: Option<Version>
    var savedBinary: Option<Binary>
    var initialized: bool
    var db: Option<AppState>
    var genesis: AppState
    var exported: Option<AppState>
    var served: bool
    ghost var log: seq<Launch>

    ghost function Disk(): World
      reads this
    {
      World(source, config, binary, Checksums(savedConfig, savedSource, savedBinary),
            initialized, db, genesis, exported)
    }

    ghost function View(): Machine
      reads this
    {
      Machine(Disk(), served, log)
    }

    constructor (w: World)
      ensures View() == Machine(w, false, [])
    {
      source, config, binary := w.source, w.config, w.binary;
      savedConfig, savedSource, savedBinary := w.saved.config, w.saved.source, w.saved.binary;
      initialized, db, genesis, exported := w.initialized, w.db, w.genesis, w.exported;
      served, log := false, [];
    }

    /** The decisions serve takes from the saved checksums before it touches anything. */
    method Decide(forceReset: bool) returns (isInit: bool, appModified: bool)
      ensures isInit == StaysInitialized(Disk(), forceReset)
      ensures appModified == AppModified(Disk())
    {
      isInit := initialized;
      if isInit {
        var configModified := false;
        if config.Some? {
          configModified := savedConfig != config;
        }
        if forceReset || configModified {
          isInit := false;
        }
      }
      var sourceModified := savedSource != Some(source);
      var binaryModified := true;
      if binary.Some? {
        binaryModified := savedBinary != binary;
      }
      appModified := sourceModified || binaryModified;
    }

    /** The init phase of serve: initialise the home, restore the exported genesis, or do nothing. */
    method PrepareHome(isInit: bool, appModified: bool, r: Round) returns (err: Option<ErrorKind>)
      modifies this`initialized, this`db, this`genesis
      ensures
        var plan := if !isInit || (appModified && exported.None?) then Initialize
                    else if appModified then Restore else Restart;
        (Disk(), err) == AfterPlan(old(Disk()), plan, r)
    {
      err := None;
      if !isInit || (appModified && exported.None?) {
        if Hits(r, Initializing) {
          if r.fault.value.partial {
            initialized, db := false, None;
          }
          return Some(r.fault.value.kind);
        }
        initialized, db, genesis := true, None, r.freshGenesis;
      } else if appModified {
        if Hits(r, Resetting) {
          if r.fault.value.partial {
            db := None;
          }
          return Some(r.fault.value.kind);
        }
        db := None;
        if Hits(r, Importing) {
          return Some(r.fault.value.kind);
        }
        genesis := exported.value;
      }
    }

    /** Saves the config checksum when there is a config file, then the source's and the binary's. */
    method SaveChecksums(r: Round) returns (err: Option<ErrorKind>)
      modifies this`savedConfig, this`savedSource, this`savedBinary
      ensures (Disk(), err) == AfterSaves(old(Disk()), r)
    {
      if config.Some? {
        if Hits(r, SavingConfig) {
          return Some(r.fault.value.kind);
        }
        savedConfig := config;
      }
      if Hits(r, SavingSource) {
        return Some(r.fault.value.kind);
      }
      savedSource := Some(source);
      if Hits(r, SavingBinary) {
        return Some(r.fault.value.kind);
      }
      savedBinary := binary;
      return None;
    }

    /** Runs the app until it ends, and marks it as served once it is up. */
    method Start(r: Round) returns (err: Option<ErrorKind>)
      modifies this`db, this`served, this`log
      ensures Disk() == old(Disk()).(db := Some(r.stop.final))
      ensures err == r.stop.kind && served == (old(served) || r.stop.served)
      ensures log == old(log) + [LaunchOn(old(Disk()), r)]
    {
      log := log + [LaunchOn(Disk(), r)];
      served := served || r.stop.served;
      db := Some(r.stop.final);
      err := r.stop.kind;
    }

    /** serve: decide from the saved checksums, build, prepare the home, save the checksums, start. */
    method ServeOnce(forceReset: bool, r: Round) returns (err: Option<ErrorKind>)
      modifies this
      ensures
        var (w, report) := ServeOnceSpec(old(Disk()), forceReset, r);
        && Disk() == w && err == report.err
        && served == (old(served) || (report.launch.Some? && r.stop.served))
        && log == if report.launch.Some? then old(log) + [report.launch.value] else old(log)
    {
      if Hits(r, Preparing) {
        return Some(r.fault.value.kind);
      }
      var isInit, appModified := Decide(forceReset);
      if !isInit || appModified {
        if Hits(r, Building) {
          return Some(r.fault.value.kind);
        }
        binary := Some(Built(source, config));
      }
      var homeErr := PrepareHome(isInit, appModified, r);
      if homeErr.Some? {
        return homeErr;
      }
      var saveErr := SaveChecksums(r);
      if saveErr.Some? {
        return saveErr;
      }
      err := Start(r);
    }

    /** What the loop does with the error of a round: save the state of a cancelled app that was served, wait
        for the next token, or give up. */
    method Conclude(err: Option<ErrorKind>, exportOk: bool) returns (halt: bool)
      modifies this`served, this`exported
      ensures
        var (m, stop) := Concluded(old(View()), err, exportOk);
        View() == m && halt == stop
    {
      halt := false;
      match err {
        case None =>
        case Some(Canceled) =>
          if served {
            served := false;
            if exportOk {
              exported := Some(if db.Some? then db.value else genesis);
            } else {
              halt := true;
            }
          }
        case Some(BuildFailure) =>
        case Some(_) => halt := true;
      }
    }

    /** One refresh token. */
    method HandleToken(reset: bool, r: Round) returns (halt: bool)
      modifies this
      ensures Turn(View(), halt) == TurnSpec(old(View()), reset, r)
    {
      source, config, binary := r.edit.source, r.edit.config, r.edit.binary;
      var err := ServeOnce(reset, r);
      halt := Conclude(err, r.exportOk);
    }

    /** Serve: handle refresh tokens until one of them ends with an error that stops the loop. */
    method Serve(forceReset: bool, resetOnce: bool, rounds: seq<Round>) returns (handled: nat)
      modifies this
      ensures View() == RoundsSpec(old(View()), forceReset, resetOnce, rounds)
      ensures handled <= |rounds|
    {
      var reset := resetOnce;
      handled := 0;
      while handled < |rounds|
        invariant handled <= |rounds|
        invariant RoundsSpec(old(View()), forceReset, resetOnce, rounds)
               == RoundsSpec(View(), forceReset, reset, rounds[handled..])
      {
        ghost var rest := rounds[handled..];
        assert rest[0] == rounds[handled] && rest[1..] == rounds[handled + 1..];
        var halt := HandleToken(forceReset || reset, rounds[handled]);
        handled := handled + 1;
        reset := false;
        if halt {
          return;
        }
      }
    }
  }
}
