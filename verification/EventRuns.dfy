/** Every interleaving of senders, the print loop and the cleanup. */
module EventRuns {
  import opened EventBus

  // ----- The counter and the channel -----

  /** How many senders have announced an event that is not in the channel yet. */
  function Busy(senders: seq<Sender>): nat {
    if senders == [] then 0 else (if senders[0].Announced? then 1 else 0) + Busy(senders[1..])
  }

  lemma {:induction false} BusyUpdate(senders: seq<Sender>, k: nat, now: Sender)
    requires k < |senders|
    ensures Busy(senders[k := now]) ==
            Busy(senders) - (if senders[k].Announced? then 1 else 0) + (if now.Announced? then 1 else 0)
  {
    if k > 0 {
      BusyUpdate(senders[1..], k - 1, now);
      assert senders[k := now][1..] == senders[1..][k - 1 := now];
    } else {
      assert senders[k := now][1..] == senders[1..];
    }
  }

  lemma {:induction false} BusySome(senders: seq<Sender>)
    ensures Busy(senders) == 0 <==> forall k :: 0 <= k < |senders| ==> !senders[k].Announced?
  {
    if senders != [] {
      BusySome(senders[1..]);
      assert forall k :: 0 < k < |senders| ==> senders[k] == senders[1..][k - 1];
      assert forall k :: 0 <= k < |senders| - 1 ==> senders[1..][k] == senders[k + 1];
    }
  }

  function Held(s: State): seq<Event> {
    if s.loop.Working? then [s.loop.event] else []
  }

  /** The counter is the events announced but not done: those at a sender, in the channel or in the loop. What
      was handled and what is left is what was sent, in the order of the channel. The loop is inside a Done just
      when the counter is zero and somebody is still blocked. */
  predicate Counted(s: State) {
    && s.counter == Busy(s.senders) + |s.queue| + |Held(s)|
    && s.counter == s.announced - |s.handled|
    && s.sent == s.handled + Held(s) + s.queue
    && |s.queue| <= s.capacity
    && (s.loop.Releasing? <==> s.counter == 0 && SomeBlocked(s))
    && (s.loop.Exited? ==> s.closed && s.queue == [])
  }

  /** A step of one sender that leaves the rest of what is counted alone. */
  lemma SenderKeepsCounted(s: State, n: State, k: nat)
    requires Counted(s) && k < |s.senders| && !s.senders[k].Announced? && !s.senders[k].Blocked?
    requires |n.senders| == |s.senders| && n.senders == s.senders[k := n.senders[k]]
    requires n.counter == s.counter + Busy([n.senders[k]]) && n.announced == s.announced + Busy([n.senders[k]])
    requires n.queue == s.queue && n.capacity == s.capacity && n.closed == s.closed && n.loop == s.loop
    requires n.sent == s.sent && n.handled == s.handled
    requires n.senders[k].Announced? || n.senders[k].Blocked? ==> s.counter > 0 || !SomeBlocked(s)
    requires n.senders[k].Blocked? ==> s.counter > 0
    ensures Counted(n)
  {
    BusyUpdate(s.senders, k, n.senders[k]);
    if SomeBlocked(s) {
      var j :| 0 <= j < |s.senders| && s.senders[j].Blocked?;
      assert n.senders[j].Blocked?;
    }
  }

  lemma PassKeepsCounted(s: State, step: Step, k: nat)
    requires Counted(s) && Enabled(s, step) && !s.closed && (step == Push(k) || step == HandOver(k))
    ensures Counted(Next(s, step))
  {
    BusyUpdate(s.senders, k, Idle);
  }

  lemma LoopKeepsCounted(s: State, step: Step)
    requires Counted(s) && Enabled(s, step) && (step.Receive? || step.Handle? || step.CallDone?)
    ensures Counted(Next(s, step)) && !Next(s, step).panicked
  {
    var n := Next(s, step);
    assert n.senders == s.senders;
    assert n.sent == n.handled + Held(n) + n.queue;
  }

  lemma ReleaseKeepsCounted(s: State)
    requires Counted(s) && Enabled(s, Release)
    ensures Counted(Next(s, Release)) && !SomeBlocked(Next(s, Release))
  {
    BusySome(s.senders);
    BusySome(Awake(s.senders));
  }

  /** What a step panics of; a Done never does. */
  lemma StepPanics(s: State, step: Step)
    requires Counted(s) && Enabled(s, step)
    ensures Next(s, step).panicked <==> (s.closed && (step.Push? || step.Shutdown?)) || Reused(s, step)
  {
  }

  lemma OneSenderKeepsCounted(s: State, step: Step, k: nat)
    requires Counted(s) && Enabled(s, step) && !Next(s, step).panicked && k < |s.senders|
    requires (step.Wait? && step.k == k) || step == Return(k) || step == Paint(k) || step == FinishPrint(k)
    ensures Counted(Next(s, step))
  {
    SenderKeepsCounted(s, Next(s, step), k);
  }

  lemma StepKeepsCounted(s: State, step: Step)
    requires Counted(s) && Enabled(s, step) && !Next(s, step).panicked
    ensures Counted(Next(s, step))
  {
    match step
    case Announce(k, _) => SenderKeepsCounted(s, Next(s, step), k);
    case Push(k) => PassKeepsCounted(s, step, k);
    case HandOver(k) => PassKeepsCounted(s, step, k);
    case Receive => LoopKeepsCounted(s, step);
    case Handle => LoopKeepsCounted(s, step);
    case CallDone => LoopKeepsCounted(s, step);
    case Release => ReleaseKeepsCounted(s);
    case Wait(k, _) => OneSenderKeepsCounted(s, step, k);
    case Return(k) => OneSenderKeepsCounted(s, step, k);
    case Paint(k) => OneSenderKeepsCounted(s, step, k);
    case FinishPrint(k) => OneSenderKeepsCounted(s, step, k);
    case _ =>
  }

  lemma StartCounted(senders: nat, capacity: nat)
    ensures Counted(Start(senders, capacity))
  {
    BusySome(Start(senders, capacity).senders);
  }

  lemma NothingAfterPanic(s: State, steps: seq<Step>)
    requires s.panicked && CanRun(s, steps)
    ensures steps == []
  {
  }

  predicate CanPanic(step: Step) {
    step.Push? || step.Shutdown? || step.Announce? || step.Return?
  }

  /** In every interleaving: the counter is exact and never negative and events are handled in the order of the
      channel, until a panic - and a panic is the end of the run, at a send, a shutdown or the return from a wait,
      never at a Done. */
  lemma {:induction false} RunKeepsCounted(s: State, steps: seq<Step>)
    requires Counted(s) && !s.panicked && CanRun(s, steps)
    ensures !Run(s, steps).panicked ==> Counted(Run(s, steps))
    ensures Run(s, steps).panicked ==> steps != [] && CanPanic(steps[|steps| - 1])
    decreases |steps|
  {
    if steps != [] {
      StepPanics(s, steps[0]);
      if Next(s, steps[0]).panicked {
        NothingAfterPanic(Next(s, steps[0]), steps[1..]);
      } else {
        StepKeepsCounted(s, steps[0]);
        RunKeepsCounted(Next(s, steps[0]), steps[1..]);
      }
    }
  }

  /** A wait can return just when every announced event is handled and done. */
  lemma WaitMeansHandled(s: State)
    requires Counted(s)
    ensures s.counter >= 0
    ensures s.counter == 0 <==> s.announced == |s.handled|
    ensures s.counter == 0 ==>
      s.handled == s.sent && s.queue == [] && forall k :: 0 <= k < |s.senders| ==> !s.senders[k].Announced?
  {
    BusySome(s.senders);
  }

  // ----- The wait group is not used again too early -----

  predicate SomeReleased(s: State) {
    exists k :: 0 <= k < |s.senders| && s.senders[k].Released?
  }

  /** Nobody announces an event while a waiter is being woken up or is not back from its wait. */
  predicate Patient(s: State, step: Step) {
    step.Announce? ==> !s.loop.Releasing? && !SomeReleased(s)
  }

  /** Who was woken up finds the counter at zero and nobody blocked. */
  predicate Fresh(s: State) {
    SomeReleased(s) ==> s.counter == 0 && !SomeBlocked(s)
  }

  lemma PatientKeepsFresh(s: State, step: Step)
    requires Counted(s) && Fresh(s) && Enabled(s, step) && Patient(s, step)
    ensures Fresh(Next(s, step)) && !Reused(s, step)
  {
    var n := Next(s, step);
    if step.Release? {
      ReleaseKeepsCounted(s);
    } else if SomeReleased(n) {
      var j :| 0 <= j < |n.senders| && n.senders[j].Released?;
      assert s.senders[j].Released?;
      WaitMeansHandled(s);
      assert !n.panicked ==> forall i :: 0 <= i < |n.senders| && n.senders[i].Blocked? ==> s.senders[i].Blocked?;
    }
  }

  /** An impatient send: it panics itself, or a waiter that comes back now does. */
  lemma ImpatientSendPanics(s: State, step: Step)
    requires Counted(s) && Enabled(s, step) && !Patient(s, step)
    ensures
      var n := Next(s, step);
      n.panicked || exists k: nat :: Enabled(n, Return(k)) && Next(n, Return(k)).panicked
  {
    var n := Next(s, step);
    if !n.panicked {
      var k :| 0 <= k < |s.senders| && s.senders[k].Released?;
      assert n.senders[k].Released?;
      assert Enabled(n, Return(k)) && Next(n, Return(k)).panicked;
    }
  }

  lemma OneStep(s: State, step: Step, rest: seq<Step>)
    requires Enabled(s, step) && CanRun(Next(s, step), rest)
    ensures CanRun(s, [step] + rest) && Run(s, [step] + rest) == Run(Next(s, step), rest)
  {
    assert ([step] + rest)[1..] == rest;
  }

  /** Two senders and the unbuffered bus: the loop is about to call Done for an event of the first, and the second
      is blocked. */
  function LastDone(e: Event, message: string): State {
    Start(2, 0).(senders := [Idle, Blocked(message)], loop := Working(e, Finished), counter := 1,
                 announced := 1, sent := [e], ops := [Send(e)],
                 screen := Start(2, 0).screen.(out := [DoneLine(e)]))
  }

  lemma LastDoneIsReached(e: Event, message: string)
    requires e.status == Done
    ensures
      var steps := [Announce(0, e), HandOver(0), Wait(1, message), Handle, Handle];
      CanRun(Start(2, 0), steps) && Run(Start(2, 0), steps) == LastDone(e, message)
  {
    var s0 := Start(2, 0);
    var s1 := Next(s0, Announce(0, e));
    var s2 := Next(s1, HandOver(0));
    var s3 := Next(s2, Wait(1, message));
    assert s3.senders == [Idle, Blocked(message)];
    var s4 := Next(s3, Handle);
    assert Next(s4, Handle) == LastDone(e, message);
    OneStep(s4, Handle, []);
    OneStep(s3, Handle, [Handle]);
    OneStep(s2, Wait(1, message), [Handle, Handle]);
    OneStep(s1, HandOver(0), [Wait(1, message), Handle, Handle]);
    OneStep(s0, Announce(0, e), [HandOver(0), Wait(1, message), Handle, Handle]);
  }

  /** With two senders the wait group can be used again too early: one announces while the loop's Done is waking
      up the other. */
  lemma TwoSendersCanReuse(e: Event, message: string)
    requires e.status == Done
    ensures
      var s := LastDone(e, message);
      var steps := [CallDone, Announce(0, e)];
      CanRun(s, steps) && Run(s, steps).panicked && !Run(s, steps).closed
  {
    var s := LastDone(e, message);
    assert s.senders[1].Blocked?;
    var n := Next(s, CallDone);
    assert n.senders[1].Blocked? && Reused(n, Announce(0, e));
    OneStep(n, Announce(0, e), []);
    OneStep(s, CallDone, [Announce(0, e)]);
  }

  predicate PatientRun(s: State, steps: seq<Step>)
    requires CanRun(s, steps)
    decreases |steps|
  {
    steps == [] || (Patient(s, steps[0]) && PatientRun(Next(s, steps[0]), steps[1..]))
  }

  /** In a patient run only a send or a shutdown of a closed bus panics. */
  lemma {:induction false} PatientRunPanics(s: State, steps: seq<Step>)
    requires Counted(s) && Fresh(s) && !s.panicked && CanRun(s, steps) && PatientRun(s, steps)
    ensures Run(s, steps).panicked ==>
      steps != [] && (steps[|steps| - 1].Push? || steps[|steps| - 1].Shutdown?) && Run(s, steps).closed
    decreases |steps|
  {
    if steps != [] {
      StepPanics(s, steps[0]);
      PatientKeepsFresh(s, steps[0]);
      if Next(s, steps[0]).panicked {
        NothingAfterPanic(Next(s, steps[0]), steps[1..]);
      } else {
        StepKeepsCounted(s, steps[0]);
        PatientRunPanics(Next(s, steps[0]), steps[1..]);
      }
    }
  }

  /** One sender alone cannot but be patient. */
  lemma OneIsPatient(s: State, step: Step)
    requires |s.senders| == 1 && Counted(s) && Enabled(s, step)
    ensures Patient(s, step)
  {
  }

  // ----- Shutting down -----

  /** No sender is between Add and the channel when the bus is shut down, none sends later, the bus is shut down
      once, and sends are patient. */
  predicate Orderly(s: State, step: Step) {
    && (step.Shutdown? ==> !s.closed && Busy(s.senders) == 0)
    && (step.Announce? ==> !s.closed)
    && Patient(s, step)
  }

  predicate OrderlyRun(s: State, steps: seq<Step>)
    requires CanRun(s, steps)
    decreases |steps|
  {
    steps == [] || (Orderly(s, steps[0]) && OrderlyRun(Next(s, steps[0]), steps[1..]))
  }

  predicate Quiet(s: State) {
    Counted(s) && Fresh(s) && !s.panicked && (s.closed ==> Busy(s.senders) == 0)
  }

  lemma StepKeepsQuiet(s: State, step: Step)
    requires Quiet(s) && Enabled(s, step) && Orderly(s, step)
    ensures Quiet(Next(s, step))
  {
    var n := Next(s, step);
    StepPanics(s, step);
    PatientKeepsFresh(s, step);
    BusySome(s.senders);
    if !n.panicked {
      StepKeepsCounted(s, step);
    }
    BusySome(n.senders);
  }

  lemma {:induction false} RunKeepsQuiet(s: State, steps: seq<Step>)
    requires Quiet(s) && CanRun(s, steps) && OrderlyRun(s, steps)
    ensures Quiet(Run(s, steps))
    decreases |steps|
  {
    if steps != [] {
      StepKeepsQuiet(s, steps[0]);
      RunKeepsQuiet(Next(s, steps[0]), steps[1..]);
    }
  }

  /** After an orderly run nothing has panicked, and when the cleanup's wait for the print loop returns, every
      announced event is handled. */
  lemma CleanupMeansHandled(senders: nat, capacity: nat, steps: seq<Step>)
    requires CanRun(Start(senders, capacity), steps) && OrderlyRun(Start(senders, capacity), steps)
    ensures
      var s := Run(Start(senders, capacity), steps);
      && !s.panicked
      && (s.loop.Exited? ==> s.handled == s.sent && s.announced == |s.handled| && s.counter == 0)
  {
    StartCounted(senders, capacity);
    RunKeepsQuiet(Start(senders, capacity), steps);
  }

  /** A sender caught between Add and the channel by a shutdown has nothing left but to panic. */
  lemma CaughtSenderPanics(s: State, k: nat, step: Step)
    requires s.closed && k < |s.senders| && s.senders[k].Announced? && Enabled(s, step)
    ensures Enabled(s, Push(k)) && Next(s, Push(k)).panicked
    ensures Next(s, step).panicked || (Next(s, step).closed && Next(s, step).senders[k] == s.senders[k])
  {
  }

  // ----- One sender -----

  function AfterAll(s: Screen, events: seq<Event>): Screen
    decreases |events|
  {
    if events == [] then s else AfterAll(After(s, events[0]), events[1..])
  }

  lemma {:induction false} AfterOneMore(s: Screen, events: seq<Event>, e: Event)
    ensures AfterAll(s, events + [e]) == After(AfterAll(s, events), e)
    decreases |events|
  {
    if events == [] {
      assert [e][1..] == [];
    } else {
      assert (events + [e])[1..] == events[1..] + [e];
      AfterOneMore(After(s, events[0]), events[1..], e);
    }
  }

  // ----- Tasks -----

  /** A pause, finished without anyone between its acts, only writes. */
  lemma PausingMeans(s: Screen, line: string)
    ensures Finish(s, Look(line)) == s.(out := s.out + [line])
  {
    var halted := s.(spinning := false);
    assert Finish(s, Look(line)) == Finish(halted, WritePaused(line, s.spinning));
    assert Finish(halted, WritePaused(line, s.spinning)) == s.(out := s.out + [line]);
  }

  /** The acts of an event, finished without anyone between them, are one round of the loop. */
  lemma EventTaskMeans(s: Screen, e: Event)
    ensures Finish(s, EventTask(e)) == After(s, e)
  {
    match e.status
    case Ongoing => assert Finish(s.(text := Text(e)), Spin) == After(s, e);
    case Done => assert Finish(s.(spinning := false), Write(DoneLine(e))) == After(s, e);
    case Neutral => PausingMeans(s, Text(e));
  }

  /** What the user sees of an event: an ongoing one turns the spinner with its text; a done one stops it and leaves
      a line with its icon, or a check mark if it has none; a neutral one leaves just its text. */
  lemma EventShows(s: Screen, e: Event)
    ensures
      After(s, e) ==
      match e.status
      case Ongoing => Screen(s.out, true, e.description + "...")
      case Done =>
        Screen(s.out + [(if e.icon != "" then e.icon else "✔") + " " + e.description + "\n"], false, s.text)
      case Neutral => Screen(s.out + [e.description], s.spinning, s.text)
  {
  }

  // ----- One sender, in order -----

  function Shown(s: Screen, op: Op): Screen {
    match op
    case Send(e) => After(s, e)
    case Print(message) => s.(out := s.out + [message])
  }

  /** The screen when everything is done one after the other, without goroutines. */
  function InOrder(s: Screen, ops: seq<Op>): Screen {
    if ops == [] then s else Shown(InOrder(s, ops[..|ops| - 1]), ops[|ops| - 1])
  }

  lemma OpsOneMore(first: Screen, ops: seq<Op>, op: Op)
    ensures InOrder(first, ops + [op]) == Shown(InOrder(first, ops), op)
  {
  }

  function LoopTask(s: State): Task {
    if s.loop.Working? then s.loop.task else Finished
  }

  /** What the sender has started is finished. */
  function Owed(s: Screen, sender: Sender): Screen {
    match sender
    case Announced(e) => After(s, e)
    case Printing(task) => Finish(s, task)
    case _ => s
  }

  /** The screen when the loop finishes what it works on and what is in the channel. */
  function Drained(s: State): Screen {
    AfterAll(Finish(s.screen, LoopTask(s)), s.queue)
  }

  /** Finishing everything that was started gives the screen of the sequential program, and nothing else is left
      once the sender is past its wait. */
  predicate Sequential(s: State, first: Screen) {
    && |s.senders| == 1 && Counted(s)
    && Owed(Drained(s), s.senders[0]) == InOrder(first, s.ops)
    && (s.senders[0].Printing? || s.senders[0].Released? ==> s.counter == 0)
  }

  lemma BusyOne(senders: seq<Sender>)
    requires |senders| == 1
    ensures Busy(senders) == if senders[0].Announced? then 1 else 0
  {
  }

  lemma NothingLeft(s: State)
    requires |s.senders| == 1 && Counted(s) && s.counter == 0
    ensures Drained(s) == s.screen && !s.senders[0].Announced? && !s.loop.Working? && s.queue == []
  {
    BusyOne(s.senders);
  }

  lemma SendKeepsScreen(s: State, step: Step, first: Screen)
    requires Sequential(s, first) && Enabled(s, step) && !s.closed && !Next(s, step).panicked
    requires step.Announce? || step.Push? || step.HandOver?
    ensures Owed(Drained(Next(s, step)), Next(s, step).senders[0]) == InOrder(first, Next(s, step).ops)
  {
    match step
    case Announce(_, e) => OpsOneMore(first, s.ops, Send(e));
    case Push(_) => AfterOneMore(Finish(s.screen, LoopTask(s)), s.queue, s.senders[0].event);
    case HandOver(_) => EventTaskMeans(s.screen, s.senders[0].event);
  }

  lemma LoopKeepsScreen(s: State, step: Step)
    requires Enabled(s, step) && !Next(s, step).panicked
    requires step.Receive? || step.Handle? || step.CallDone? || step.Release?
    ensures Drained(Next(s, step)) == Drained(s)
  {
    if step.Receive? {
      EventTaskMeans(s.screen, s.queue[0]);
    }
  }

  lemma BeginKeepsScreen(s: State, k: nat, message: string, first: Screen)
    requires Sequential(s, first) && s.counter == 0 && k < |s.senders| && !s.senders[k].Printing?
    ensures Owed(Drained(Begun(s, k, message)), Begun(s, k, message).senders[0]) ==
            InOrder(first, Begun(s, k, message).ops)
  {
    NothingLeft(s);
    PausingMeans(s.screen, message);
    OpsOneMore(first, s.ops, Print(message));
  }

  lemma PaintKeepsScreen(s: State, step: Step, first: Screen)
    requires Sequential(s, first) && Enabled(s, step) && (step.Paint? || step.FinishPrint?)
    ensures Owed(Drained(Next(s, step)), Next(s, step).senders[0]) == InOrder(first, Next(s, step).ops)
  {
    NothingLeft(s);
  }

  /** A step of the sender and the print loop alone. */
  predicate Sends(step: Step) {
    !step.Shutdown? && !step.StopSpinner?
  }

  lemma StepKeepsScreen(s: State, step: Step, first: Screen)
    requires Sequential(s, first) && Enabled(s, step) && Sends(step) && !s.closed && !Next(s, step).panicked
    ensures Owed(Drained(Next(s, step)), Next(s, step).senders[0]) == InOrder(first, Next(s, step).ops)
  {
    match step
    case Announce(_, _) => SendKeepsScreen(s, step, first);
    case Push(_) => SendKeepsScreen(s, step, first);
    case HandOver(_) => SendKeepsScreen(s, step, first);
    case Wait(k, message) =>
      if s.counter == 0 {
        BeginKeepsScreen(s, k, message, first);
      }
    case Return(k) => BeginKeepsScreen(s, k, s.senders[k].message, first);
    case Paint(_) => PaintKeepsScreen(s, step, first);
    case FinishPrint(_) => PaintKeepsScreen(s, step, first);
    case Exit =>
    case _ => LoopKeepsScreen(s, step);
  }

  /** One sender: it prints only when the loop has nothing to do. */
  predicate Single(s: State) {
    |s.senders| == 1 && Counted(s) && (s.senders[0].Printing? || s.senders[0].Released? ==> s.counter == 0)
  }

  lemma StepKeepsSingle(s: State, step: Step)
    requires Single(s) && Enabled(s, step)
    ensures !Reused(s, step)
    ensures !Next(s, step).panicked ==> Single(Next(s, step))
  {
    OneIsPatient(s, step);
    PatientKeepsFresh(s, step);
    if !Next(s, step).panicked {
      StepKeepsCounted(s, step);
    }
  }

  lemma StepKeepsSequential(s: State, step: Step, first: Screen)
    requires Sequential(s, first) && Enabled(s, step) && Sends(step) && !s.closed
    ensures Sequential(Next(s, step), first) && !Next(s, step).closed && !Next(s, step).panicked
  {
    StepPanics(s, step);
    StepKeepsSingle(s, step);
    StepKeepsScreen(s, step, first);
  }

  predicate AllSend(steps: seq<Step>) {
    forall i :: 0 <= i < |steps| ==> Sends(steps[i])
  }

  lemma {:induction false} RunKeepsSequential(s: State, steps: seq<Step>, first: Screen)
    requires Sequential(s, first) && !s.closed && CanRun(s, steps) && AllSend(steps)
    ensures Sequential(Run(s, steps), first)
    decreases |steps|
  {
    if steps != [] {
      StepKeepsSequential(s, steps[0], first);
      RunKeepsSequential(Next(s, steps[0]), steps[1..], first);
    }
  }

  /** With one sender, however it is interleaved with the print loop: whenever everything announced is done and no
      print is under way, the screen is what the sender's events and prints give one after the other. */
  lemma OneSenderIsSequential(capacity: nat, steps: seq<Step>)
    requires CanRun(Start(1, capacity), steps) && AllSend(steps)
    ensures
      var s := Run(Start(1, capacity), steps);
      && |s.senders| == 1
      && (s.counter == 0 && !s.senders[0].Printing? ==> s.screen == InOrder(Start(1, capacity).screen, s.ops))
  {
    var start := Start(1, capacity);
    StartCounted(1, capacity);
    RunKeepsSequential(start, steps, start.screen);
    var s := Run(start, steps);
    if s.counter == 0 {
      NothingLeft(s);
    }
  }
}
