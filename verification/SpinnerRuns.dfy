/** What is left of the spinner when a session is cleaned up, in every interleaving. */
module SpinnerRuns {
  import opened EventBus
  import opened EventRuns

  // ----- The spinner at the end -----

  predicate SpinsAfter(spinning: bool, events: seq<Event>) {
    if events == [] then spinning
    else
      var e := events[|events| - 1];
      if e.status == Neutral then SpinsAfter(spinning, events[..|events| - 1]) else e.status == Ongoing
  }

  lemma {:induction false} SpinsOneAfter(spinning: bool, e: Event, events: seq<Event>)
    ensures SpinsAfter(spinning, [e] + events) == SpinsAfter(SpinsAfter(spinning, [e]), events)
  {
    if events == [] {
      assert [e] + events == [e];
    } else {
      assert ([e] + events)[..|events|] == [e] + events[..|events| - 1];
      SpinsOneAfter(spinning, e, events[..|events| - 1]);
    }
  }

  lemma {:induction false} SpinnerAfterAll(s: Screen, events: seq<Event>)
    ensures AfterAll(s, events).spinning == SpinsAfter(s.spinning, events)
    decreases |events|
  {
    if events != [] {
      SpinnerAfterAll(After(s, events[0]), events[1..]);
      assert events == [events[0]] + events[1..];
      SpinsOneAfter(s.spinning, events[0], events[1..]);
      assert SpinsAfter(s.spinning, [events[0]]) == After(s, events[0]).spinning;
    }
  }

  /** The task has yet to start the spinner, or is in the pause of one that turned. */
  predicate Lit(t: Task) {
    match t
    case SetText(_) => true
    case Spin => true
    case HaltPaused(_, active) => active
    case WritePaused(_, active) => active
    case Resume(active) => active
    case _ => false
  }

  /** A task that is lit ends with the spinner turning; one that is not leaves a spinner that stands still. */
  lemma {:induction false} LitMeans(s: Screen, t: Task)
    ensures Lit(t) ==> Finish(s, t).spinning
    ensures !Lit(t) && !s.spinning ==> !Finish(s, t).spinning
    decreases Acts(t)
  {
    if !t.Finished? {
      LitMeans(Painted(s, t), Rest(s, t));
    }
  }


  // ----- Reached states -----

  predicate InStep(s: State) {
    !s.panicked ==> Counted(s)
  }

  lemma {:induction false} RunInStep(s: State, steps: seq<Step>)
    requires InStep(s) && CanRun(s, steps)
    ensures InStep(Run(s, steps))
    decreases |steps|
  {
    if steps != [] {
      if !Next(s, steps[0]).panicked {
        StepKeepsCounted(s, steps[0]);
      }
      RunInStep(Next(s, steps[0]), steps[1..]);
    }
  }

  /** What holds of the state after any run from the start. */
  lemma ReachedInStep(senders: nat, capacity: nat, steps: seq<Step>)
    requires CanRun(Start(senders, capacity), steps)
    ensures InStep(Run(Start(senders, capacity), steps))
  {
    StartCounted(senders, capacity);
    RunInStep(Start(senders, capacity), steps);
  }

  // ----- Whether it can be left turning -----

  predicate SomeOngoing(events: seq<Event>) {
    exists i :: 0 <= i < |events| && events[i].status == Ongoing
  }

  /** A print is in the pause of a spinner that turned. */
  predicate LitPrinter(s: State) {
    exists k :: 0 <= k < |s.senders| && s.senders[k].Printing? && Lit(s.senders[k].task)
  }

  /** A print has yet to look whether the spinner turns. */
  predicate SomeLooking(s: State) {
    exists k :: 0 <= k < |s.senders| && s.senders[k].Printing? && s.senders[k].task.Look?
  }

  /** The spinner turns, or the loop will start it for a while at least. */
  predicate Flares(s: State) {
    s.screen.spinning || Lit(LoopTask(s)) || SomeOngoing(s.queue)
  }

  /** Some interleaving leaves the spinner turning: a print resumes it, the loop ends with it turning, or a print
      looks while the loop has it turning. */
  predicate CanTurn(s: State) {
    LitPrinter(s) || Drained(s).spinning || (SomeLooking(s) && Flares(s))
  }

  /** No event is passed on, and the spinner is not stopped again. */
  predicate Draining(step: Step) {
    !step.Push? && !step.HandOver? && !step.StopSpinner?
  }

  predicate AllDraining(steps: seq<Step>) {
    forall i :: 0 <= i < |steps| ==> Draining(steps[i])
  }

  /** The same task, of which one goroutine saw less of the spinner. */
  predicate Dimmer(t: Task, u: Task) {
    match t
    case HaltPaused(line, active) => u.HaltPaused? && (active ==> u.active)
    case WritePaused(line, active) => u.WritePaused? && (active ==> u.active)
    case Resume(active) => u.Resume? && (active ==> u.active)
    case _ => t == u
  }

  lemma {:induction false} FinishMonotone(a: Screen, b: Screen, t: Task, u: Task)
    requires Dimmer(t, u) && (a.spinning ==> b.spinning)
    ensures Finish(a, t).spinning ==> Finish(b, u).spinning
    decreases Acts(t)
  {
    if !t.Finished? {
      FinishMonotone(Painted(a, t), Painted(b, u), Rest(a, t), Rest(b, u));
    }
  }

  lemma {:induction false} SpinsMonotone(a: bool, b: bool, events: seq<Event>)
    requires a ==> b
    ensures SpinsAfter(a, events) ==> SpinsAfter(b, events)
  {
    if events != [] {
      SpinsMonotone(a, b, events[..|events| - 1]);
    }
  }

  lemma DrainedSpins(s: State)
    ensures Drained(s).spinning == SpinsAfter(Finish(s.screen, LoopTask(s)).spinning, s.queue)
  {
    SpinnerAfterAll(Finish(s.screen, LoopTask(s)), s.queue);
  }

  lemma DrainedMonotone(s: State, n: State)
    requires LoopTask(n) == LoopTask(s) && n.queue == s.queue && (n.screen.spinning ==> s.screen.spinning)
    ensures Drained(n).spinning ==> Drained(s).spinning
  {
    FinishMonotone(n.screen, s.screen, LoopTask(s), LoopTask(s));
    SpinsMonotone(Finish(n.screen, LoopTask(n)).spinning, Finish(s.screen, LoopTask(s)).spinning, s.queue);
    DrainedSpins(s);
    DrainedSpins(n);
  }

  predicate LoopStep(step: Step) {
    step.Receive? || step.Handle? || step.CallDone? || step.Release?
  }

  /** The loop starts the spinner only if it flares. */
  lemma LoopKeepsDark(s: State, step: Step)
    requires Enabled(s, step) && LoopStep(step)
    ensures Flares(Next(s, step)) ==> Flares(s)
  {
    if step.Receive? {
      ReceiveKeepsDark(s);
    }
  }

  lemma LitEvent(e: Event)
    ensures Lit(EventTask(e)) <==> e.status == Ongoing
  {
  }

  lemma ReceiveKeepsDark(s: State)
    requires Enabled(s, Receive)
    ensures Flares(Next(s, Receive)) ==> Flares(s)
  {
    LitEvent(s.queue[0]);
  }

  /** Printers are left alone. */
  predicate PrintersKept(s: State, n: State) {
    |n.senders| == |s.senders|
    && forall k :: 0 <= k < |s.senders| ==>
      (s.senders[k].Printing? || n.senders[k].Printing? ==> n.senders[k] == s.senders[k])
  }

  lemma KeptPrinters(s: State, n: State)
    requires PrintersKept(s, n)
    ensures LitPrinter(n) == LitPrinter(s) && SomeLooking(n) == SomeLooking(s)
  {
    if LitPrinter(s) {
      var k :| 0 <= k < |s.senders| && s.senders[k].Printing? && Lit(s.senders[k].task);
      assert n.senders[k] == s.senders[k];
    }
    if SomeLooking(s) {
      var k :| 0 <= k < |s.senders| && s.senders[k].Printing? && s.senders[k].task.Look?;
      assert n.senders[k] == s.senders[k];
    }
  }

  lemma LoopKeepsCalm(s: State, step: Step)
    requires Enabled(s, step) && LoopStep(step) && !CanTurn(s) && !Next(s, step).panicked
    ensures !CanTurn(Next(s, step))
  {
    LoopKeepsScreen(s, step);
    LoopKeepsDark(s, step);
    KeptPrinters(s, Next(s, step));
  }

  lemma BeginKeepsCalm(s: State, k: nat, message: string)
    requires Counted(s) && s.counter == 0 && k < |s.senders| && !s.senders[k].Printing? && !CanTurn(s)
    ensures !CanTurn(Begun(s, k, message))
  {
    assert Drained(s) == s.screen;
    var n := Begun(s, k, message);
    assert forall j :: 0 <= j < |n.senders| && j != k ==> n.senders[j] == s.senders[j];
  }

  lemma PaintKeepsCalm(s: State, k: nat)
    requires Enabled(s, Paint(k)) && !CanTurn(s)
    ensures !CanTurn(Next(s, Paint(k)))
  {
    var n, t := Next(s, Paint(k)), s.senders[k].task;
    DrainedMonotone(s, n);
    assert Flares(n) ==> Flares(s);
    assert forall j :: 0 <= j < |n.senders| && j != k ==> n.senders[j] == s.senders[j];
  }

  lemma StepKeepsCalm(s: State, step: Step)
    requires Counted(s) && Enabled(s, step) && Draining(step) && !Next(s, step).panicked && !CanTurn(s)
    ensures !CanTurn(Next(s, step))
  {
    var n := Next(s, step);
    if LoopStep(step) {
      LoopKeepsCalm(s, step);
    } else if step.Paint? {
      PaintKeepsCalm(s, step.k);
    } else if n.ops != s.ops && !step.Announce? {
      BeginKeepsCalm(s, step.k, if step.Wait? then step.message else s.senders[step.k].message);
    } else {
      assert Drained(n) == Drained(s) && Flares(n) == Flares(s);
      assert forall k :: 0 <= k < |n.senders| && n.senders[k].Printing? ==> n.senders[k] == s.senders[k];
    }
  }

  lemma {:induction false} RunKeepsCalm(s: State, steps: seq<Step>)
    requires Counted(s) && !s.panicked && CanRun(s, steps) && AllDraining(steps) && !CanTurn(s)
    ensures Run(s, steps).loop.Exited? ==> !Run(s, steps).screen.spinning
    decreases |steps|
  {
    assert s.loop.Exited? ==> Drained(s) == s.screen;
    if steps != [] {
      var n := Next(s, steps[0]);
      StepPanics(s, steps[0]);
      if n.panicked {
        NothingAfterPanic(n, steps[1..]);
      } else {
        StepKeepsCounted(s, steps[0]);
        StepKeepsCalm(s, steps[0]);
        RunKeepsCalm(n, steps[1..]);
      }
    }
  }

  // ----- An interleaving that leaves it turning -----

  lemma {:induction false} RunConcat(s: State, a: seq<Step>, b: seq<Step>)
    requires CanRun(s, a) && CanRun(Run(s, a), b)
    ensures CanRun(s, a + b) && Run(s, a + b) == Run(Run(s, a), b)
    decreases |a|
  {
    if a == [] {
      assert [] + b == b;
    } else {
      RunConcat(Next(s, a[0]), a[1..], b);
      assert (a + b)[0] == a[0] && (a + b)[1..] == a[1..] + b;
    }
  }

  /** A draining run from one state to the other. */
  predicate Leads(s: State, steps: seq<Step>, n: State) {
    AllDraining(steps) && CanRun(s, steps) && Run(s, steps) == n
  }

  lemma LeadsOn(s: State, a: seq<Step>, m: State, b: seq<Step>, n: State)
    requires Leads(s, a, m) && Leads(m, b, n)
    ensures Leads(s, a + b, n)
  {
    RunConcat(s, a, b);
  }

  lemma LeadsOne(s: State, step: Step)
    requires Enabled(s, step) && Draining(step)
    ensures Leads(s, [step], Next(s, step))
  {
    OneStep(s, step, []);
  }

  predicate Alive(s: State) {
    !s.panicked && Counted(s) && !s.loop.Exited?
  }

  /** The loop has something to do. */
  predicate Occupied(s: State) {
    s.loop.Working? || s.loop.Releasing? || s.queue != []
  }

  function LoopNext(s: State): Step {
    match s.loop
    case Working(_, task) => if !task.Finished? then Handle else CallDone
    case Releasing => Release
    case _ => Receive
  }

  function Rank(s: State): nat {
    match s.loop
    case Working(_, _) => 2
    case Releasing => 1
    case _ => 0
  }

  /** One more step of the loop. */
  lemma LoopAdvances(s: State)
    requires Alive(s) && Occupied(s)
    ensures
      var n := Next(s, LoopNext(s));
      && Enabled(s, LoopNext(s)) && Draining(LoopNext(s))
      && Alive(n) && n.closed == s.closed && Drained(n) == Drained(s) && PrintersKept(s, n)
      && |n.queue| <= |s.queue| && (n.queue == s.queue ==> Rank(n) <= Rank(s))
      && (|n.queue| == |s.queue| && Rank(n) == Rank(s) ==> Acts(LoopTask(n)) < Acts(LoopTask(s)))
  {
    StepPanics(s, LoopNext(s));
    StepKeepsCounted(s, LoopNext(s));
    LoopKeepsScreen(s, LoopNext(s));
  }

  /** The loop alone empties the channel. */
  lemma {:induction false} LoopDrains(s: State) returns (steps: seq<Step>, n: State)
    requires Alive(s)
    ensures Leads(s, steps, n) && Alive(n) && n.closed == s.closed && PrintersKept(s, n)
    ensures n.loop.Waiting? && n.queue == [] && n.screen == Drained(s)
    decreases |s.queue|, Rank(s), Acts(LoopTask(s))
  {
    if Occupied(s) {
      LoopAdvances(s);
      LeadsOne(s, LoopNext(s));
      var rest;
      rest, n := LoopDrains(Next(s, LoopNext(s)));
      steps := [LoopNext(s)] + rest;
      LeadsOn(s, [LoopNext(s)], Next(s, LoopNext(s)), rest, n);
    } else {
      steps, n := [], s;
    }
  }

  /** A loop that flares still does so after a step, until the spinner turns. */
  lemma FlaresOn(s: State)
    requires Alive(s) && Flares(s) && !s.screen.spinning
    ensures Occupied(s) && Enabled(s, LoopNext(s)) && Flares(Next(s, LoopNext(s)))
  {
    if s.loop.Waiting? {
      ReceiveFlares(s);
    }
  }

  lemma ReceiveFlares(s: State)
    requires Enabled(s, Receive) && SomeOngoing(s.queue)
    ensures Flares(Next(s, Receive))
  {
    LitEvent(s.queue[0]);
    var i :| 0 <= i < |s.queue| && s.queue[i].status == Ongoing;
    assert i > 0 ==> s.queue[1..][i - 1] == s.queue[i];
  }

  /** A loop that flares comes to a point at which the spinner turns. */
  lemma {:induction false} LoopLights(s: State) returns (steps: seq<Step>, n: State)
    requires Alive(s) && Flares(s)
    ensures Leads(s, steps, n) && Alive(n) && n.closed == s.closed && PrintersKept(s, n)
    ensures n.screen.spinning
    decreases |s.queue|, Rank(s), Acts(LoopTask(s))
  {
    if s.screen.spinning {
      steps, n := [], s;
    } else {
      FlaresOn(s);
      LoopAdvances(s);
      LeadsOne(s, LoopNext(s));
      var rest;
      rest, n := LoopLights(Next(s, LoopNext(s)));
      steps := [LoopNext(s)] + rest;
      LeadsOn(s, [LoopNext(s)], Next(s, LoopNext(s)), rest, n);
    }
  }

  /** A print alone is finished. */
  lemma {:induction false} PrintFinishes(s: State, k: nat) returns (steps: seq<Step>, n: State)
    requires !s.panicked && IsPrinting(s, k)
    ensures Leads(s, steps, n) && n.loop == s.loop && n.screen == Finish(s.screen, s.senders[k].task)
    decreases if IsPrinting(s, k) then Acts(s.senders[k].task) else 0
  {
    if s.senders[k].task.Finished? {
      steps, n := [], s;
    } else {
      LeadsOne(s, Paint(k));
      var rest;
      rest, n := PrintFinishes(Next(s, Paint(k)), k);
      steps := [Paint(k)] + rest;
      LeadsOn(s, [Paint(k)], Next(s, Paint(k)), rest, n);
    }
  }

  predicate LeftTurning(s: State) {
    s.loop.Exited? && s.screen.spinning
  }

  /** A closed bus: the loop drains and leaves, and a print that is lit comes last. */
  lemma TurningIsReached(s: State) returns (steps: seq<Step>, n: State)
    requires Alive(s) && s.closed && (LitPrinter(s) || Drained(s).spinning)
    ensures Leads(s, steps, n) && LeftTurning(n)
  {
    var idle;
    steps, idle := LoopDrains(s);
    LeadsOne(idle, Exit);
    n := Next(idle, Exit);
    LeadsOn(s, steps, idle, [Exit], n);
    steps := steps + [Exit];
    if LitPrinter(s) {
      KeptPrinters(s, n);
      var k :| 0 <= k < |n.senders| && n.senders[k].Printing? && Lit(n.senders[k].task);
      LitMeans(n.screen, n.senders[k].task);
      var last, m := PrintFinishes(n, k);
      LeadsOn(s, steps, n, last, m);
      steps, n := steps + last, m;
    }
  }

  lemma LookingIsLit(s: State, k: nat)
    requires !s.panicked && IsPrinting(s, k) && s.senders[k].task.Look? && s.screen.spinning
    ensures Enabled(s, Paint(k)) && LitPrinter(Next(s, Paint(k)))
  {
    assert Lit(Next(s, Paint(k)).senders[k].task);
  }

  lemma CanTurnIsReached(s: State) returns (steps: seq<Step>, n: State)
    requires Alive(s) && !s.closed && CanTurn(s)
    ensures Leads(s, steps, n) && LeftTurning(n)
  {
    var down := Next(s, Shutdown);
    LeadsOne(s, Shutdown);
    StepKeepsCounted(s, Shutdown);
    KeptPrinters(s, down);
    var first, m := [Shutdown], down;
    if !LitPrinter(s) && !Drained(s).spinning {
      var k :| 0 <= k < |s.senders| && s.senders[k].Printing? && s.senders[k].task.Look?;
      var lights, lit := LoopLights(down);
      LookingIsLit(lit, k);
      LeadsOn(s, first, down, lights, lit);
      LeadsOne(lit, Paint(k));
      StepKeepsCounted(lit, Paint(k));
      LeadsOn(s, first + lights, lit, [Paint(k)], Next(lit, Paint(k)));
      first, m := first + lights + [Paint(k)], Next(lit, Paint(k));
    }
    var last;
    last, n := TurningIsReached(m);
    LeadsOn(s, first, m, last, n);
    steps := first + last;
  }

  // ----- The cleanup -----

  /** What is pending before the cleanup stops the spinner and can start it again: a print in the pause of a
      spinner that turned; the loop, if it ends with the spinner turning; a print that looks while the loop has
      it turning. */
  predicate CanKeepTurning(s: State) {
    || LitPrinter(s)
    || SpinsAfter(Lit(LoopTask(s)), s.queue)
    || (SomeLooking(s) && (Lit(LoopTask(s)) || SomeOngoing(s.queue)))
  }

  lemma StoppedMeans(s: State)
    requires Counted(s) && !s.panicked
    ensures CanTurn(Next(s, StopSpinner)) <==> CanKeepTurning(s)
  {
    var stopped := Next(s, StopSpinner);
    DrainedSpins(stopped);
    if s.loop.Working? {
      LitMeans(stopped.screen, s.loop.task);
    }
    assert stopped.senders == s.senders;
  }

  /** The cleanup stops the spinner and shuts the bus down. Whatever the senders, the loop and the prints are
      doing then, and when the bus takes nothing more: some interleaving leaves the spinner turning at the end of
      the loop just when something pending can start it again. */
  lemma SpinnerAfterCleanup(senders: nat, capacity: nat, before: seq<Step>)
    requires CanRun(Start(senders, capacity), before)
    ensures
      var s := Run(Start(senders, capacity), before);
      !s.panicked && !s.closed ==>
        ((exists after, end :: Leads(Next(s, StopSpinner), after, end) && LeftTurning(end)) <==> CanKeepTurning(s))
  {
    var s := Run(Start(senders, capacity), before);
    ReachedInStep(senders, capacity, before);
    if !s.panicked && !s.closed {
      var stopped := Next(s, StopSpinner);
      StepKeepsCounted(s, StopSpinner);
      StoppedMeans(s);
      if CanTurn(stopped) {
        var after, end := CanTurnIsReached(stopped);
      } else {
        forall after, end | Leads(stopped, after, end) ensures !LeftTurning(end) {
          RunKeepsCalm(stopped, after);
        }
      }
    }
  }

  // ----- Prints that do not overlap -----

  /** One print at most, and none while the loop works on an event. */
  predicate Alone(s: State) {
    forall k :: 0 <= k < |s.senders| && s.senders[k].Printing? ==>
      !s.loop.Working? && forall j :: 0 <= j < |s.senders| && s.senders[j].Printing? ==> j == k
  }

  /** Nobody overlaps, and the spinner is not stopped again. */
  predicate AloneRun(s: State, steps: seq<Step>)
    requires CanRun(s, steps)
    decreases |steps|
  {
    Alone(s) && (steps == [] || (!steps[0].StopSpinner? && AloneRun(Next(s, steps[0]), steps[1..])))
  }

  predicate NobodyPrints(s: State) {
    forall k :: 0 <= k < |s.senders| ==> !s.senders[k].Printing?
  }

  /** Whoever is at work, the spinner turns or stands still as `turns` says when that is finished. */
  predicate Glows(s: State, turns: bool) {
    && (s.loop.Working? ==> Finish(s.screen, s.loop.task).spinning == turns)
    && (forall k :: 0 <= k < |s.senders| && s.senders[k].Printing? ==>
          Finish(s.screen, s.senders[k].task).spinning == turns)
    && (NobodyPrints(s) && !s.loop.Working? ==> s.screen.spinning == turns)
  }

  /** The events the loop was given. */
  function Received(s: State): seq<Event> {
    s.handled + Held(s)
  }

  /** A step that gives the loop an event. */
  lemma GivenGlows(s: State, step: Step, turns: bool)
    requires Glows(s, turns) && Enabled(s, step) && Alone(Next(s, step)) && (step.Receive? || step.HandOver?)
    ensures
      var n := Next(s, step);
      n.loop.Working? && Received(n) == Received(s) + [n.loop.event] && Glows(n, SpinsAfter(turns, [n.loop.event]))
  {
    var n := Next(s, step);
    assert NobodyPrints(n);
    assert forall k :: 0 <= k < |s.senders| && s.senders[k].Printing? ==> n.senders[k] == s.senders[k];
    EventTaskMeans(s.screen, n.loop.event);
  }

  lemma BegunGlows(s: State, k: nat, message: string, turns: bool)
    requires Glows(s, turns) && k < |s.senders| && Alone(Begun(s, k, message)) && !s.senders[k].Printing?
    ensures Glows(Begun(s, k, message), turns)
  {
    var n := Begun(s, k, message);
    assert n.senders[k].Printing?;
    assert forall j :: 0 <= j < |s.senders| && s.senders[j].Printing? ==> n.senders[j] == s.senders[j];
    PausingMeans(s.screen, message);
  }

  lemma PrintGlows(s: State, step: Step, turns: bool)
    requires Glows(s, turns) && Enabled(s, step) && Alone(s) && (step.Paint? || step.FinishPrint?)
    ensures Glows(Next(s, step), turns)
  {
    var n := Next(s, step);
    assert s.senders[step.k].Printing?;
    assert step.Paint? ==> n.senders[step.k].Printing?;
    assert forall j :: 0 <= j < |s.senders| && j != step.k ==> n.senders[j] == s.senders[j];
  }

  lemma WorkGlows(s: State, step: Step, turns: bool)
    requires Glows(s, turns) && Enabled(s, step) && Alone(s) && (step.Handle? || step.CallDone?)
    requires !Next(s, step).panicked
    ensures Glows(Next(s, step), turns) && Received(Next(s, step)) == Received(s)
  {
    assert NobodyPrints(s);
    assert NobodyPrints(Next(s, step));
  }

  lemma OtherGlows(s: State, step: Step, turns: bool)
    requires Glows(s, turns) && Enabled(s, step)
    requires step.Announce? || step.Push? || step.Release? || step.Shutdown? || step.Exit?
    ensures Glows(Next(s, step), turns) && Received(Next(s, step)) == Received(s)
  {
    KeptNobody(s, Next(s, step));
  }

  lemma KeptNobody(s: State, n: State)
    requires PrintersKept(s, n)
    ensures NobodyPrints(n) == NobodyPrints(s)
  {
    if NobodyPrints(n) {
      assert forall k :: 0 <= k < |s.senders| && s.senders[k].Printing? ==> n.senders[k] == s.senders[k];
    }
  }

  /** The events of b that are not in its part a. */
  function Since(a: seq<Event>, b: seq<Event>): seq<Event>
    requires a <= b
  {
    b[|a|..]
  }

  lemma StepGlows(s: State, step: Step, turns: bool)
    requires Glows(s, turns) && Enabled(s, step) && Alone(s) && Alone(Next(s, step)) && !step.StopSpinner?
    requires !Next(s, step).panicked
    ensures Received(s) <= Received(Next(s, step))
    ensures Glows(Next(s, step), SpinsAfter(turns, Since(Received(s), Received(Next(s, step)))))
  {
    match step
    case Receive => GivenGlows(s, step, turns);
    case HandOver(_) => GivenGlows(s, step, turns);
    case Wait(k, message) =>
      if s.counter == 0 {
        BegunGlows(s, k, message, turns);
      } else {
        KeptNobody(s, Next(s, step));
      }
    case Return(k) => BegunGlows(s, k, s.senders[k].message, turns);
    case Paint(_) => PrintGlows(s, step, turns);
    case FinishPrint(_) => PrintGlows(s, step, turns);
    case Handle => WorkGlows(s, step, turns);
    case CallDone => WorkGlows(s, step, turns);
    case _ => OtherGlows(s, step, turns);
  }

  lemma {:induction false} SpinsConcat(spinning: bool, a: seq<Event>, b: seq<Event>)
    ensures SpinsAfter(spinning, a + b) == SpinsAfter(SpinsAfter(spinning, a), b)
  {
    if b == [] {
      assert a + b == a;
    } else {
      assert (a + b)[..|a + b| - 1] == a + b[..|b| - 1];
      SpinsConcat(spinning, a, b[..|b| - 1]);
    }
  }

  lemma SinceConcat(spinning: bool, a: seq<Event>, b: seq<Event>, c: seq<Event>)
    requires a <= b && b <= c
    ensures a <= c && SpinsAfter(SpinsAfter(spinning, Since(a, b)), Since(b, c)) == SpinsAfter(spinning, Since(a, c))
  {
    SpinsConcat(spinning, Since(a, b), Since(b, c));
    assert Since(a, c) == Since(a, b) + Since(b, c);
  }

  lemma PanicStays(s: State, steps: seq<Step>)
    requires CanRun(s, steps) && steps != [] && !Run(s, steps).panicked
    ensures !Next(s, steps[0]).panicked
  {
    if Next(s, steps[0]).panicked {
      NothingAfterPanic(Next(s, steps[0]), steps[1..]);
    }
  }

  lemma {:induction false} RunGlows(s: State, steps: seq<Step>, turns: bool)
    requires Glows(s, turns) && CanRun(s, steps) && AloneRun(s, steps) && !Run(s, steps).panicked
    ensures Received(s) <= Received(Run(s, steps))
    ensures Glows(Run(s, steps), SpinsAfter(turns, Since(Received(s), Received(Run(s, steps)))))
    decreases |steps|
  {
    if steps != [] {
      var n := Next(s, steps[0]);
      PanicStays(s, steps);
      StepGlows(s, steps[0], turns);
      RunGlows(n, steps[1..], SpinsAfter(turns, Since(Received(s), Received(n))));
      SinceConcat(turns, Received(s), Received(n), Received(Run(n, steps[1..])));
    }
  }

  /** Stopping the spinner leaves turning just what is lit. */
  lemma StoppedGlows(s: State)
    requires Alone(s) && !s.panicked
    ensures Glows(Next(s, StopSpinner), Lit(LoopTask(s)) || LitPrinter(s))
  {
    var stopped := Next(s, StopSpinner);
    if s.loop.Working? {
      LitMeans(stopped.screen, s.loop.task);
    }
    forall k | 0 <= k < |s.senders| && s.senders[k].Printing?
      ensures Finish(stopped.screen, s.senders[k].task).spinning == LitPrinter(s)
    {
      LitMeans(stopped.screen, s.senders[k].task);
    }
  }

  /** When prints do not overlap with each other or with the loop, nothing is left to chance, also with events sent
      after the stop: the spinner turns at the end just when the last event the loop is given after the stop,
      neutral ones aside, is an ongoing one; and if there is none, when the stop fell before the start of an
      ongoing event's spinner or in the pause of a spinner that turned. */
  lemma SpinnerAfterCleanupAlone(senders: nat, capacity: nat, before: seq<Step>, after: seq<Step>)
    requires CanRun(Start(senders, capacity), before) && !Run(Start(senders, capacity), before).panicked
    requires
      var stopped := Next(Run(Start(senders, capacity), before), StopSpinner);
      CanRun(stopped, after) && AloneRun(stopped, after) && !Run(stopped, after).panicked
    ensures
      var s := Run(Start(senders, capacity), before);
      var end := Run(Next(s, StopSpinner), after);
      end.loop.Exited? && NobodyPrints(end) ==>
        && Received(s) <= end.sent
        && end.screen.spinning == SpinsAfter(Lit(LoopTask(s)) || LitPrinter(s), Since(Received(s), end.sent))
  {
    var s := Run(Start(senders, capacity), before);
    ReachedInStep(senders, capacity, before);
    var stopped := Next(s, StopSpinner);
    StoppedGlows(s);
    StepKeepsCounted(s, StopSpinner);
    RunGlows(stopped, after, Lit(LoopTask(s)) || LitPrinter(s));
    RunInStep(stopped, after);
    var end := Run(stopped, after);
    assert end.loop.Exited? ==> Received(end) == end.sent;
  }

  /** With one sender nothing overlaps. */
  lemma {:induction false} OneSenderIsAlone(s: State, steps: seq<Step>)
    requires Single(s) && !s.panicked && CanRun(s, steps)
    requires forall i :: 0 <= i < |steps| ==> !steps[i].StopSpinner?
    ensures AloneRun(s, steps)
    decreases |steps|
  {
    if steps != [] {
      var n := Next(s, steps[0]);
      StepKeepsSingle(s, steps[0]);
      if n.panicked {
        NothingAfterPanic(n, steps[1..]);
        StepPanics(s, steps[0]);
      } else {
        OneSenderIsAlone(n, steps[1..]);
      }
    }
  }

  // ----- Two runs -----

  /** On the session's own bus, the stop finds the loop with an ongoing event in its hand. */
  lemma OngoingKeepsTurning(e: Event)
    requires e.status == Ongoing
    ensures
      var before := [Announce(0, e), HandOver(0)];
      CanRun(Start(1, 0), before) && CanKeepTurning(Run(Start(1, 0), before))
  {
    var announced := Next(Start(1, 0), Announce(0, e));
    var held := Next(announced, HandOver(0));
    OneStep(announced, HandOver(0), []);
    OneStep(Start(1, 0), Announce(0, e), [HandOver(0)]);
    assert [Announce(0, e)] + [HandOver(0)] == [Announce(0, e), HandOver(0)];
    LitEvent(e);
  }

  /** The spinner turns, and the loop has looked at it for a neutral event. */
  function Paused(on: Event, e: Event): State {
    Start(1, 0).(loop := Working(e, HaltPaused(Text(e), true)), counter := 1, announced := 2,
                 sent := [on, e], handled := [on], ops := [Send(on), Send(e)],
                 screen := Screen([], true, Text(on)))
  }

  function Turning(on: Event): State {
    Start(1, 0).(announced := 1, sent := [on], handled := [on], ops := [Send(on)], screen := Screen([], true, Text(on)))
  }

  lemma TurningIsShown(on: Event)
    requires on.status == Ongoing
    ensures
      var steps := [Announce(0, on), HandOver(0), Handle, Handle, CallDone];
      CanRun(Start(1, 0), steps) && Run(Start(1, 0), steps) == Turning(on)
  {
    var s1 := Next(Start(1, 0), Announce(0, on));
    var s2 := Next(s1, HandOver(0));
    assert s2.senders == [Idle];
    var s3 := Next(s2, Handle);
    var s4 := Next(s3, Handle);
    assert Next(s4, CallDone) == Turning(on);
    OneStep(s4, CallDone, []);
    OneStep(s3, Handle, [CallDone]);
    OneStep(s2, Handle, [Handle, CallDone]);
    OneStep(s1, HandOver(0), [Handle, Handle, CallDone]);
    OneStep(Start(1, 0), Announce(0, on), [HandOver(0), Handle, Handle, CallDone]);
  }

  /** The stop falls in the pause of a neutral event: nothing ongoing is pending, and the loop starts the spinner
      again. */
  lemma PauseKeepsTurning(on: Event, e: Event)
    requires e.status == Neutral
    ensures
      var steps := [Announce(0, e), HandOver(0), Handle];
      CanRun(Turning(on), steps) && Run(Turning(on), steps) == Paused(on, e) && CanKeepTurning(Paused(on, e))
  {
    var s1 := Next(Turning(on), Announce(0, e));
    var s2 := Next(s1, HandOver(0));
    assert s2.senders == [Idle];
    assert Next(s2, Handle) == Paused(on, e);
    OneStep(s2, Handle, []);
    OneStep(s1, HandOver(0), [Handle]);
    OneStep(Turning(on), Announce(0, e), [HandOver(0), Handle]);
    assert Lit(Paused(on, e).loop.task);
  }
}
