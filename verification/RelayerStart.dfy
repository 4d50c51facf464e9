/** The concurrent relaying loops of Start: each tick calls the remote with a path of the configuration
    loaded at the beginning, then, under a mutex, loads the file, updates its path and saves. */
module RelayerStart {
  import opened Common
  import opened RelayerConfig
  import opened Relayer
  import opened RelayerRuns

  /** Where one loop stands. From Locked to Saved it holds the mutex. */
  datatype Phase =
    | Idle
    | Replied(reply: Path)
    | Locked(reply: Path)
    | Read(reply: Path, local: Config)
    | Patched(reply: Path, local: Config)
    | Saved
    | Stopped
  {
    predicate Holds() {
      Locked? || Read? || Patched? || Saved?
    }

    predicate HasReply() {
      Replied? || Locked? || Read? || Patched?
    }
  }

  datatype Action = CallRemote(reply: Option<Path>) | Advance | Fail

  datatype State = State(
    snapshot: Config,
    ids: seq<string>,
    file: Config,
    mutex: Option<nat>,
    phases: seq<Phase>,
    commits: seq<Path>)

  function Begin(c: Config, ids: seq<string>): State {
    State(c, ids, c, None, seq(|ids|, i => Idle), [])
  }

  /** One atomic action of loop t; an action that is not enabled changes nothing. */
  function Act(s: State, t: nat, a: Action): State
    requires t < |s.phases| == |s.ids|
  {
    match a
    case CallRemote(reply) =>
      if !s.phases[t].Idle? then s
      else if FindPath(s.snapshot.paths, s.ids[t]).None? || reply.None? then s.(phases := s.phases[t := Stopped])
      else if SameIdentity(FindPath(s.snapshot.paths, s.ids[t]).value, reply.value) then
        s.(phases := s.phases[t := Replied(reply.value)])
      else s
    case Fail =>
      if s.phases[t].Holds() && !s.phases[t].Saved? then s.(phases := s.phases[t := Stopped], mutex := None)
      else if s.phases[t].Idle? || s.phases[t].Replied? then s.(phases := s.phases[t := Stopped])
      else s
    case Advance =>
      match s.phases[t]
      case Replied(reply) =>
        if s.mutex.Some? then s else s.(phases := s.phases[t := Locked(reply)], mutex := Some(t))
      case Locked(reply) => s.(phases := s.phases[t := Read(reply, s.file)])
      case Read(reply, local) =>
        if FindPath(local.paths, reply.id).None? then s.(phases := s.phases[t := Stopped], mutex := None)
        else s.(phases := s.phases[t := Patched(reply, local.(paths := Updated(local.paths, reply)))])
      case Patched(reply, local) =>
        s.(phases := s.phases[t := Saved], file := local.(version := SUPPORT_VERSION), commits := s.commits + [reply])
      case Saved => s.(phases := s.phases[t := Idle], mutex := None)
      case Idle => s
      case Stopped => s
  }

  /** A schedule is any sequence of actions of any loops. */
  function Play(s: State, schedule: seq<(nat, Action)>): State
    requires |s.phases| == |s.ids|
    requires forall i :: 0 <= i < |schedule| ==> schedule[i].0 < |s.ids|
    decreases |schedule|
  {
    if schedule == [] then s else Play(Act(s, schedule[0].0, schedule[0].1), schedule[1..])
  }

  predicate PhaseFits(p: Phase, holder: bool, file: Config, snapshot: Config) {
    && (p.Holds() <==> holder)
    && (p.HasReply() ==> Answers(snapshot, p.reply))
    && (p.Read? ==> p.local == file)
    && (p.Patched? ==> p.local == file.(paths := Updated(file.paths, p.reply)))
  }

  predicate Invariant(s: State) {
    && |s.phases| == |s.ids|
    && (forall t :: 0 <= t < |s.phases| ==> PhaseFits(s.phases[t], s.mutex == Some(t), s.file, s.snapshot))
    && RepliesTo(s.snapshot, s.commits)
    && s.file == CommitAll(s.snapshot, s.commits)
  }

  lemma CallKeepsInvariant(s: State, t: nat, reply: Option<Path>)
    requires Invariant(s) && t < |s.ids|
    ensures Invariant(Act(s, t, CallRemote(reply)))
  {
    assert PhaseFits(s.phases[t], s.mutex == Some(t), s.file, s.snapshot);
    FindPathMeans(s.snapshot.paths, s.ids[t]);
  }

  lemma SaveKeepsInvariant(s: State, t: nat)
    requires Invariant(s) && t < |s.ids| && s.phases[t].Patched?
    ensures Invariant(Act(s, t, Advance))
  {
  }

  /** A step of one loop that leaves the file and the commits alone: the other loops see nothing of it. */
  lemma OthersKeep(s: State, t: nat, phase: Phase, mutex: Option<nat>)
    requires Invariant(s) && t < |s.ids| && PhaseFits(phase, mutex == Some(t), s.file, s.snapshot)
    requires mutex == s.mutex || (s.mutex == Some(t) && mutex == None) || (s.mutex == None && mutex == Some(t))
    ensures Invariant(s.(phases := s.phases[t := phase], mutex := mutex))
  {
    var s' := s.(phases := s.phases[t := phase], mutex := mutex);
    forall u | 0 <= u < |s.phases|
      ensures PhaseFits(s'.phases[u], s'.mutex == Some(u), s'.file, s'.snapshot)
    {
      assert PhaseFits(s.phases[u], s.mutex == Some(u), s.file, s.snapshot);
    }
  }

  lemma FailKeepsInvariant(s: State, t: nat)
    requires Invariant(s) && t < |s.ids|
    ensures Invariant(Act(s, t, Fail))
  {
    assert PhaseFits(s.phases[t], s.mutex == Some(t), s.file, s.snapshot);
    if s.phases[t].Holds() && !s.phases[t].Saved? {
      OthersKeep(s, t, Stopped, None);
    } else if s.phases[t].Idle? || s.phases[t].Replied? {
      OthersKeep(s, t, Stopped, s.mutex);
    }
  }

  lemma AdvanceKeepsInvariant(s: State, t: nat)
    requires Invariant(s) && t < |s.ids|
    ensures Invariant(Act(s, t, Advance))
  {
    assert PhaseFits(s.phases[t], s.mutex == Some(t), s.file, s.snapshot);
    match s.phases[t]
    case Replied(reply) =>
      if s.mutex.None? {
        OthersKeep(s, t, Locked(reply), Some(t));
      }
    case Locked(reply) => OthersKeep(s, t, Read(reply, s.file), s.mutex);
    case Read(reply, local) =>
      if FindPath(local.paths, reply.id).None? {
        OthersKeep(s, t, Stopped, None);
      } else {
        OthersKeep(s, t, Patched(reply, local.(paths := Updated(local.paths, reply))), s.mutex);
      }
    case Patched(_, _) => SaveKeepsInvariant(s, t);
    case Saved => OthersKeep(s, t, Idle, None);
    case Idle =>
    case Stopped =>
  }

  /** Every action of every loop keeps the invariant, and the configuration the loops started with. */
  lemma ActKeepsInvariant(s: State, t: nat, a: Action)
    requires Invariant(s) && t < |s.ids|
    ensures Invariant(Act(s, t, a)) && Act(s, t, a).snapshot == s.snapshot && Act(s, t, a).ids == s.ids
  {
    match a
    case CallRemote(reply) => CallKeepsInvariant(s, t, reply);
    case Fail => FailKeepsInvariant(s, t);
    case Advance => AdvanceKeepsInvariant(s, t);
  }

  /** The last reply committed for a path ID, if any. */
  function LastCommit(commits: seq<Path>, id: string): Option<Path> {
    if commits == [] then None
    else if commits[|commits| - 1].id == id then Some(commits[|commits| - 1])
    else LastCommit(commits[..|commits| - 1], id)
  }

  lemma {:induction false} CommitAllFinds(c: Config, commits: seq<Path>, id: string)
    requires RepliesTo(c, commits)
    ensures
      var last := LastCommit(commits, id);
      && FindPath(CommitAll(c, commits).paths, id) == (if last.Some? then last else FindPath(c.paths, id))
      && CommitAll(c, commits).chains == c.chains
      && |CommitAll(c, commits).paths| == |c.paths|
  {
    if commits != [] {
      var most, last := commits[..|commits| - 1], commits[|commits| - 1];
      CommitAllFinds(c, most, id);
      CommitAllFinds(c, most, last.id);
      FindUpdated(CommitAll(c, most).paths, last, id);
    }
  }

  lemma {:induction false} PlayKeepsInvariant(s: State, schedule: seq<(nat, Action)>)
    requires Invariant(s)
    requires forall i :: 0 <= i < |schedule| ==> schedule[i].0 < |s.ids|
    ensures Invariant(Play(s, schedule)) && Play(s, schedule).snapshot == s.snapshot
    decreases |schedule|
  {
    if schedule != [] {
      ActKeepsInvariant(s, schedule[0].0, schedule[0].1);
      var rest := schedule[1..];
      assert forall i :: 0 <= i < |rest| ==> rest[i] == schedule[i + 1];
      PlayKeepsInvariant(Act(s, schedule[0].0, schedule[0].1), rest);
    }
  }

  /** Whatever the schedule, the file holds for each path the last reply committed for it, or its initial
      value, and the same chains: no loop overwrites what another one saved. */
  lemma NoLostUpdate(c: Config, ids: seq<string>, schedule: seq<(nat, Action)>, id: string)
    requires forall i :: 0 <= i < |schedule| ==> schedule[i].0 < |ids|
    ensures
      var e := Play(Begin(c, ids), schedule);
      && e.file.chains == c.chains && |e.file.paths| == |c.paths|
      && FindPath(e.file.paths, id) ==
           if LastCommit(e.commits, id).Some? then LastCommit(e.commits, id) else FindPath(c.paths, id)
  {
    PlayKeepsInvariant(Begin(c, ids), schedule);
    CommitAllFinds(c, Play(Begin(c, ids), schedule).commits, id);
  }

  /** Every interleaving leaves a configuration that one sequence of ticks also reaches, so it is well
      formed and keeps what the run invariant keeps. */
  lemma StartKeeps(c: Config, ids: seq<string>, schedule: seq<(nat, Action)>)
    requires WellFormed(c)
    requires forall i :: 0 <= i < |schedule| ==> schedule[i].0 < |ids|
    ensures
      var e := Play(Begin(c, ids), schedule);
      Step(c, Ticks(e.commits), e.file) && WellFormed(e.file) && Extends(c, e.file)
  {
    PlayKeepsInvariant(Begin(c, ids), schedule);
    CommitAllKeeps(c, Play(Begin(c, ids), schedule).commits);
  }

  // ----- Every tick that is not stopped saves its reply -----

  /** The reply of a loop that passes to Saved in this step. */
  function SavedBy(s: State, t: nat, n: State): seq<Path>
    requires t < |s.phases| == |n.phases|
  {
    if s.phases[t].HasReply() && n.phases[t].Saved? then [s.phases[t].reply] else []
  }

  /** The one step that writes the file writes the reply of its loop, and records it. */
  lemma ActSaves(s: State, t: nat, a: Action)
    requires Invariant(s) && t < |s.ids|
    ensures
      var n := Act(s, t, a);
      && |n.phases| == |s.phases| && n.commits == s.commits + SavedBy(s, t, n)
      && n.file == if SavedBy(s, t, n) == [] then s.file else Commit(s.file, s.phases[t].reply)
  {
    assert PhaseFits(s.phases[t], s.mutex == Some(t), s.file, s.snapshot);
  }

  /** The loop only goes on: it does not fail, and calls no more. */
  predicate OnlyAdvances(t: nat, schedule: seq<(nat, Action)>) {
    forall i :: 0 <= i < |schedule| && schedule[i].0 == t ==> schedule[i].1.Advance?
  }

  /** The loop is still on its way with the reply, or the reply is among the commits from `base` on. */
  predicate Pending(s: State, t: nat, reply: Path, base: nat) {
    && t < |s.phases| && base <= |s.commits|
    && if s.phases[t].HasReply() then s.phases[t].reply == reply
       else (s.phases[t].Saved? || s.phases[t].Idle?) && reply in s.commits[base..]
  }

  lemma OtherPending(s: State, t: nat, u: nat, a: Action, reply: Path, base: nat)
    requires Invariant(s) && u < |s.ids| && u != t && Pending(s, t, reply, base)
    ensures Pending(Act(s, u, a), t, reply, base)
  {
    var n := Act(s, u, a);
    ActSaves(s, u, a);
    assert n.phases[t] == s.phases[t];
    assert n.commits[base..] == s.commits[base..] + SavedBy(s, u, n);
  }

  lemma OwnPending(s: State, t: nat, reply: Path, base: nat)
    requires Invariant(s) && t < |s.ids| && Pending(s, t, reply, base)
    ensures Pending(Act(s, t, Advance), t, reply, base)
  {
    var n := Act(s, t, Advance);
    ActSaves(s, t, Advance);
    assert n.commits[base..] == s.commits[base..] + SavedBy(s, t, n);
    FindAnswer(s, t);
  }

  /** What a loop holds a reply for is in the file. */
  lemma FindAnswer(s: State, t: nat)
    requires Invariant(s) && t < |s.ids|
    ensures s.phases[t].HasReply() ==> FindPath(s.file.paths, s.phases[t].reply.id).Some?
    ensures s.phases[t].Read? ==> s.phases[t].local == s.file
  {
    assert PhaseFits(s.phases[t], s.mutex == Some(t), s.file, s.snapshot);
    if s.phases[t].HasReply() {
      CommitAllFinds(s.snapshot, s.commits, s.phases[t].reply.id);
    }
  }

  lemma {:induction false} PlayPending(s: State, t: nat, schedule: seq<(nat, Action)>, reply: Path, base: nat)
    requires Invariant(s) && Pending(s, t, reply, base) && OnlyAdvances(t, schedule)
    requires forall i :: 0 <= i < |schedule| ==> schedule[i].0 < |s.ids|
    ensures Pending(Play(s, schedule), t, reply, base)
    decreases |schedule|
  {
    if schedule != [] {
      var u, a, rest := schedule[0].0, schedule[0].1, schedule[1..];
      ActKeepsInvariant(s, u, a);
      if u == t {
        OwnPending(s, t, reply, base);
      } else {
        OtherPending(s, t, u, a, reply, base);
      }
      assert forall i :: 0 <= i < |rest| ==> rest[i] == schedule[i + 1];
      PlayPending(Act(s, u, a), t, rest, reply, base);
    }
  }

  /** The remote answers a call for a path of the configuration, and the loop only goes on after it: whatever the
      other loops do meanwhile, it never stops, and when it is through, its reply is among what was committed since
      the call. */
  lemma AnsweredTickIsSaved(s: State, t: nat, reply: Path, schedule: seq<(nat, Action)>)
    requires Invariant(s) && t < |s.ids| && s.phases[t].Idle? && OnlyAdvances(t, schedule)
    requires FindPath(s.snapshot.paths, s.ids[t]).Some?
    requires SameIdentity(FindPath(s.snapshot.paths, s.ids[t]).value, reply)
    requires forall i :: 0 <= i < |schedule| ==> schedule[i].0 < |s.ids|
    ensures
      var end := Play(Act(s, t, CallRemote(Some(reply))), schedule);
      && t < |end.phases| && |s.commits| <= |end.commits| && !end.phases[t].Stopped?
      && (end.phases[t].HasReply() ==> end.phases[t].reply == reply)
      && (!end.phases[t].HasReply() ==> reply in end.commits[|s.commits|..])
  {
    ActKeepsInvariant(s, t, CallRemote(Some(reply)));
    PlayPending(Act(s, t, CallRemote(Some(reply))), t, schedule, reply, |s.commits|);
  }

  /** And it gets through: with the mutex free, five steps of its own commit the reply to the file as it is then,
      and give the mutex back. */
  lemma UndisturbedTickCommits(s: State, t: nat, reply: Path)
    requires Invariant(s) && t < |s.ids| && s.phases[t] == Replied(reply) && s.mutex.None?
    ensures
      var locked := Act(s, t, Advance);
      var read := Act(locked, t, Advance);
      var patched := Act(read, t, Advance);
      var saved := Act(patched, t, Advance);
      var done := Act(saved, t, Advance);
      && locked.mutex == Some(t) && done.mutex == None && done.phases == s.phases[t := Idle]
      && done.file == Commit(s.file, reply) && done.commits == s.commits + [reply]
  {
    FindAnswer(s, t);
  }

  /** A loop that fails stops, wherever it stands before its save; it writes nothing, and gives the mutex back if it
      holds it. */
  lemma FailStops(s: State, t: nat)
    requires Invariant(s) && t < |s.ids| && !s.phases[t].Saved?
    ensures
      var n := Act(s, t, Fail);
      && n.phases == s.phases[t := Stopped] && n.file == s.file && n.commits == s.commits
      && n.mutex == if s.mutex == Some(t) then None else s.mutex
  {
    assert PhaseFits(s.phases[t], s.mutex == Some(t), s.file, s.snapshot);
    assert s.phases[t].Stopped? ==> s.phases[t := Stopped] == s.phases;
  }

  /** So does a loop whose path is not in the configuration, or whose call fails. */
  lemma FailedCallStops(s: State, t: nat, reply: Option<Path>)
    requires Invariant(s) && t < |s.ids| && s.phases[t].Idle?
    requires FindPath(s.snapshot.paths, s.ids[t]).None? || reply.None?
    ensures Act(s, t, CallRemote(reply)) == s.(phases := s.phases[t := Stopped])
  {
  }

  /** The mutex keeps its holder: while it is taken, nobody else gets it. */
  lemma MutexIsExclusive(s: State, t: nat, u: nat)
    requires Invariant(s) && t < |s.phases| && u < |s.phases| && s.phases[t].Holds() && s.phases[u].Holds()
    ensures t == u && s.mutex == Some(t)
  {
    assert PhaseFits(s.phases[t], s.mutex == Some(t), s.file, s.snapshot);
    assert PhaseFits(s.phases[u], s.mutex == Some(u), s.file, s.snapshot);
  }

  /** What a tick does while it holds the mutex. */
  method CommitReply(file: File, reply: Path) returns (ok: bool)
    modifies file
    ensures ok <==> Readable(old(file.content)) && FindPath(old(file.content.paths), reply.id).Some?
    ensures file.content == if ok then Commit(old(file.content), reply) else old(file.content)
  {
    var loaded := file.Get();
    if loaded.Err? {
      return false;
    }
    var found := UpdatePath(loaded.value, reply);
    if !found {
      return false;
    }
    file.Save(loaded.value);
    ok := true;
  }
}
