/**
  The event bus and the session that prints it: senders, a channel, a print loop and a wait group.

  The goroutines are a state machine. A step is what happens between two points where another goroutine can
  run; a run is any interleaving of enabled steps. The wait group is Go's: a Done that brings the counter to zero
  wakes up the blocked in a second step, and Add and Wait panic when the group is used again before that is over.
 */
module EventBus {
  datatype Status = Ongoing | Done | Neutral

  datatype Event = Event(status: Status, description: string, icon: string)

  function Text(e: Event): string {
    if e.status == Ongoing then e.description + "..." else e.description
  }

  // ----- The screen -----

  const OK := "✔"

  /** What was written, whether the spinner turns, and its text. */
  datatype Screen = Screen(out: seq<string>, spinning: bool, text: string)

  function DoneLine(e: Event): string {
    (if e.icon == "" then OK else e.icon) + " " + Text(e) + "\n"
  }

  /** The screen after an event is handled. */
  function After(s: Screen, e: Event): Screen {
    match e.status
    case Ongoing => s.(spinning := true, text := Text(e))
    case Done => s.(spinning := false, out := s.out + [DoneLine(e)])
    case Neutral => s.(out := s.out + [Text(e)])
  }

  /** The session's screen, as the print loop and the print methods change it. */
  class Session {
    var out: seq<string>
    var spinning: bool
    var text: string

    constructor ()
      ensures Now() == Screen([], false, "Initializing...")
    {
      out, spinning, text := [], false, "Initializing...";
    }

    ghost function Now(): Screen
      reads this
    {
      Screen(out, spinning, text)
    }

    method StartSpinner(text: string)
      modifies this
      ensures Now() == Screen(old(out), true, text)
    {
      this.text, spinning := text, true;
    }

    method StopSpinner()
      modifies this`spinning
      ensures !spinning
    {
      spinning := false;
    }

    method Resume(wasActive: bool)
      modifies this`spinning
      ensures spinning == (old(spinning) || wasActive)
    {
      if wasActive {
        spinning := true;
      }
    }

    /** One round of the print loop. */
    method HandleEvent(e: Event)
      modifies this
      ensures Now() == After(old(Now()), e)
    {
      match e.status {
        case Ongoing => StartSpinner(Text(e));
        case Done =>
          var icon := e.icon;
          if icon == "" {
            icon := OK;
          }
          StopSpinner();
          out := out + [icon + " " + Text(e) + "\n"];
        case Neutral =>
          var isActive := spinning;
          StopSpinner();
          out := out + [Text(e)];
          Resume(isActive);
      }
    }

    /** A print method, once its wait is over. */
    method Print(message: string)
      modifies this
      ensures Now() == old(Now()).(out := old(out) + [message])
    {
      var isActive := spinning;
      StopSpinner();
      out := out + [message];
      Resume(isActive);
    }
  }

  // ----- Act by act -----

  /** Where a goroutine stands in what it does to the screen: each step is an act, between two of which another
      goroutine can run. */
  datatype Task =
    | Finished
    | SetText(text: string)                 // an ongoing event: the text, then the spinner
    | Spin
    | Halt(line: string)                    // a done event: stop the spinner, then write
    | Write(line: string)
    | Look(line: string)                    // a pause: look whether the spinner turns, stop it,
    | HaltPaused(line: string, active: bool)
    | WritePaused(line: string, active: bool)
    | Resume(active: bool)                  // and start it again if it did

  /** One round of the print loop, up to the wait group's Done. */
  function EventTask(e: Event): Task {
    match e.status
    case Ongoing => SetText(Text(e))
    case Done => Halt(DoneLine(e))
    case Neutral => Look(Text(e))
  }

  /** The screen after the next act. */
  function Painted(s: Screen, t: Task): Screen {
    match t
    case SetText(text) => s.(text := text)
    case Spin => s.(spinning := true)
    case Halt(_) => s.(spinning := false)
    case Write(line) => s.(out := s.out + [line])
    case HaltPaused(_, _) => s.(spinning := false)
    case WritePaused(line, _) => s.(out := s.out + [line])
    case Resume(active) => s.(spinning := s.spinning || active)
    case _ => s
  }

  /** What is left after the next act. */
  function Rest(s: Screen, t: Task): Task {
    match t
    case SetText(_) => Spin
    case Halt(line) => Write(line)
    case Look(line) => HaltPaused(line, s.spinning)
    case HaltPaused(line, active) => WritePaused(line, active)
    case WritePaused(_, active) => Resume(active)
    case _ => Finished
  }

  /** How many acts are left. */
  function Acts(t: Task): nat {
    match t
    case Finished => 0
    case Spin => 1
    case Write(_) => 1
    case Resume(_) => 1
    case SetText(_) => 2
    case Halt(_) => 2
    case WritePaused(_, _) => 2
    case HaltPaused(_, _) => 3
    case Look(_) => 4
  }

  /** The screen when the task is finished and nobody else touches it. */
  function Finish(s: Screen, t: Task): Screen
    decreases Acts(t)
  {
    if t.Finished? then s else Finish(Painted(s, t), Rest(s, t))
  }

  // ----- The goroutines -----

  /** A sender is idle; between the wait group's Add and the channel; blocked in its Wait; woken up by the last
      Done but not back from Wait; or past its wait and printing. */
  datatype Sender =
    | Idle
    | Announced(event: Event)
    | Blocked(message: string)
    | Released(message: string)
    | Printing(task: Task)

  /** The print loop waits for an event, works on one, is inside the Done that wakes up the blocked, or is over. */
  datatype Loop = Waiting | Working(event: Event, task: Task) | Releasing | Exited

  /** What a sender does, in the order it starts to; a print starts when its wait is over. */
  datatype Op = Send(event: Event) | Print(message: string)

  datatype State = State(
    senders: seq<Sender>,
    queue: seq<Event>,
    capacity: nat,
    closed: bool,
    panicked: bool,
    loop: Loop,
    counter: int,
    screen: Screen,
    announced: nat,
    sent: seq<Event>,
    handled: seq<Event>,
    ops: seq<Op>)

  function Start(senders: nat, capacity: nat): State {
    State(seq(senders, _ => Idle), [], capacity, false, false, Waiting, 0, Screen([], false, "Initializing..."),
          0, [], [], [])
  }

  datatype Step =
    | Announce(k: nat, event: Event)
    | Push(k: nat)
    | HandOver(k: nat)
    | Receive
    | Handle
    | CallDone
    | Release
    | Wait(k: nat, message: string)
    | Return(k: nat)
    | Paint(k: nat)
    | FinishPrint(k: nat)
    | StopSpinner
    | Shutdown
    | Exit

  predicate IsIdle(s: State, k: nat) {
    k < |s.senders| && s.senders[k].Idle?
  }

  predicate IsAnnounced(s: State, k: nat) {
    k < |s.senders| && s.senders[k].Announced?
  }

  predicate IsPrinting(s: State, k: nat) {
    k < |s.senders| && s.senders[k].Printing?
  }

  predicate SomeBlocked(s: State) {
    exists k :: 0 <= k < |s.senders| && s.senders[k].Blocked?
  }

  /** Everybody who is blocked is woken up. */
  function Awake(senders: seq<Sender>): seq<Sender> {
    seq(|senders|, k requires 0 <= k < |senders| =>
      if senders[k].Blocked? then Released(senders[k].message) else senders[k])
  }

  /** The step can be taken: a full channel blocks a sender, an empty one the loop. Nothing runs after a panic. */
  predicate Enabled(s: State, step: Step) {
    && !s.panicked
    && match step
       case Announce(k, _) => IsIdle(s, k)
       case Push(k) => IsAnnounced(s, k) && (s.closed || |s.queue| < s.capacity)
       case HandOver(k) => IsAnnounced(s, k) && !s.closed && s.queue == [] && s.loop.Waiting?
       case Receive => s.loop.Waiting? && s.queue != []
       case Handle => s.loop.Working? && !s.loop.task.Finished?
       case CallDone => s.loop.Working? && s.loop.task.Finished?
       case Release => s.loop.Releasing?
       case Wait(k, _) => IsIdle(s, k)
       case Return(k) => k < |s.senders| && s.senders[k].Released?
       case Paint(k) => IsPrinting(s, k) && !s.senders[k].task.Finished?
       case FinishPrint(k) => IsPrinting(s, k) && s.senders[k].task.Finished?
       case StopSpinner => true
       case Shutdown => true
       case Exit => s.loop.Waiting? && s.closed && s.queue == []
  }

  /** The wait group is used again too early: an Add between the last Done and the wake-up of the blocked, or a
      waiter that is back from its sleep only after a new Add. */
  predicate Reused(s: State, step: Step) {
    match step
    case Announce(_, _) => s.counter == 0 && SomeBlocked(s)
    case Return(_) => s.counter != 0 || SomeBlocked(s)
    case _ => false
  }

  function Begun(s: State, k: nat, message: string): State
    requires k < |s.senders|
  {
    s.(senders := s.senders[k := Printing(Look(message))], ops := s.ops + [Print(message)])
  }

  /** The state after an enabled step. Sending on a closed channel, closing it again, a negative counter and a
      wait group that is used again too early panic. */
  function Next(s: State, step: Step): State
    requires Enabled(s, step)
  {
    match step
    case Announce(k, e) =>
      if Reused(s, step) then s.(panicked := true)
      else
        s.(senders := s.senders[k := Announced(e)], counter := s.counter + 1, announced := s.announced + 1,
           ops := s.ops + [Send(e)])
    case Push(k) =>
      if s.closed then s.(panicked := true)
      else
        var e := s.senders[k].event;
        s.(senders := s.senders[k := Idle], queue := s.queue + [e], sent := s.sent + [e])
    case HandOver(k) =>
      var e := s.senders[k].event;
      s.(senders := s.senders[k := Idle], loop := Working(e, EventTask(e)), sent := s.sent + [e])
    case Receive => s.(loop := Working(s.queue[0], EventTask(s.queue[0])), queue := s.queue[1..])
    case Handle =>
      s.(screen := Painted(s.screen, s.loop.task), loop := Working(s.loop.event, Rest(s.screen, s.loop.task)))
    case CallDone =>
      if s.counter <= 0 then s.(panicked := true)
      else
        s.(counter := s.counter - 1, handled := s.handled + [s.loop.event],
           loop := if s.counter == 1 && SomeBlocked(s) then Releasing else Waiting)
    case Release => s.(senders := Awake(s.senders), loop := Waiting)
    case Wait(k, message) =>
      if s.counter == 0 then Begun(s, k, message) else s.(senders := s.senders[k := Blocked(message)])
    case Return(k) =>
      if Reused(s, step) then s.(panicked := true) else Begun(s, k, s.senders[k].message)
    case Paint(k) =>
      var t := s.senders[k].task;
      s.(senders := s.senders[k := Printing(Rest(s.screen, t))], screen := Painted(s.screen, t))
    case FinishPrint(k) => s.(senders := s.senders[k := Idle])
    case StopSpinner => s.(screen := s.screen.(spinning := false))
    case Shutdown => if s.closed then s.(panicked := true) else s.(closed := true)
    case Exit => s.(loop := Exited)
  }

  predicate CanRun(s: State, steps: seq<Step>)
    decreases |steps|
  {
    steps == [] || (Enabled(s, steps[0]) && CanRun(Next(s, steps[0]), steps[1..]))
  }

  function Run(s: State, steps: seq<Step>): State
    requires CanRun(s, steps)
    decreases |steps|
  {
    if steps == [] then s else Run(Next(s, steps[0]), steps[1..])
  }
}
