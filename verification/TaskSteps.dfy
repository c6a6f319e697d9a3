/**
  packages/js/src/scheduled-task.ts as a state machine: a task's status and its
  events, when listeners may call the handle again before the call that emitted
  returns.
 */
module TaskSteps {
  import opened Wrappers

  datatype Status = Stopped | Idle | Destroyed

  datatype Emitted = TaskStarted | TaskStopped | TaskDestroyed | MaxReached

  /**
    What is left of a call whose listeners are running: nothing, the end of
    destroy() or retire(), the destroy() after execution:maxReached, or the
    finally of a run that got there.
   */
  datatype Frame = Plain | Destroying | Reaching | Finishing

  /** log: the events in the order their dispatch began. */
  datatype State = State(status: Status, busy: int, runs: nat, calls: seq<Frame>, log: seq<Emitted>)

  const INITIAL := State(Stopped, 0, 0, [], [])

  function Emitting(s: State, event: Emitted, left: Frame): State {
    s.(log := s.log + [event], calls := s.calls + [left])
  }

  function Start(s: State): State {
    if s.status.Stopped? then Emitting(s.(status := Idle), TaskStarted, Plain) else s
  }

  function Stop(s: State): State {
    if s.status.Idle? then Emitting(s.(status := Stopped), TaskStopped, Plain) else s
  }

  /** destroy() once stop() has returned. */
  function DestroyedNow(s: State): State {
    Emitting(s.(status := Destroyed), TaskDestroyed, Plain)
  }

  function Destroy(s: State): State {
    if s.status.Destroyed? then s
    else if s.status.Idle? then Emitting(s.(status := Stopped), TaskStopped, Destroying)
    else DestroyedNow(s)
  }

  /** A callback begins; a scheduled one counts. */
  function Begin(s: State, scheduled: bool): State {
    if scheduled then s.(busy := s.busy + 1, runs := s.runs + 1) else s
  }

  function Count(calls: seq<Frame>, frame: Frame): nat {
    if calls == [] then 0 else Count(calls[..|calls| - 1], frame) + if calls[|calls| - 1] == frame then 1 else 0
  }

  /** A callback settles only if one is running: begun, and not in its finally yet. */
  predicate MaySettle(s: State, scheduled: bool) {
    scheduled && s.busy > Count(s.calls, Finishing)
  }

  predicate Reaches(s: State, succeeded: bool, max: Option<int>) {
    succeeded && max.Some? && max.value > 0 && s.runs >= max.value
  }

  /** A callback settled: a scheduled one that succeeded may reach maxExecutions. */
  function Settle(s: State, scheduled: bool, succeeded: bool, max: Option<int>): State {
    if !MaySettle(s, scheduled) then s
    else if Reaches(s, succeeded, max) then Emitting(s.(calls := s.calls + [Finishing]), MaxReached, Reaching)
    else s.(busy := s.busy - 1)
  }

  /** The listeners of the innermost call have returned. */
  function Return(s: State): State {
    if s.calls == [] then s
    else
      var outer := s.(calls := s.calls[..|s.calls| - 1]);
      match s.calls[|s.calls| - 1]
      case Plain => outer
      case Destroying => DestroyedNow(outer)
      case Reaching => Destroy(outer)
      case Finishing => outer.(busy := outer.busy - 1)
  }

  /** Calls of the handle, by anyone and at any depth, and returns of listeners. */
  datatype Event = OnStart | OnStop | OnDestroy | OnBegin(scheduled: bool) | OnSettle(scheduled: bool, succeeded: bool) | OnReturn

  function Step(s: State, e: Event, max: Option<int>): State {
    match e
    case OnStart => Start(s)
    case OnStop => Stop(s)
    case OnDestroy => Destroy(s)
    case OnBegin(scheduled) => Begin(s, scheduled)
    case OnSettle(scheduled, succeeded) => Settle(s, scheduled, succeeded, max)
    case OnReturn => Return(s)
  }

  function After(es: seq<Event>, max: Option<int>): State {
    if es == [] then INITIAL else Step(After(es[..|es| - 1], max), es[|es| - 1], max)
  }

  // ----- Listeners -----

  /** A registration; each call of on() or once() makes its own. */
  datatype Registration = Registration(id: nat, once: bool)

  /** One event's list, and the lists dispatches have taken so far. */
  datatype Listeners = Listeners(list: seq<Registration>, next: nat, dispatched: seq<seq<Registration>>)

  datatype Change = Listen(once: bool) | Off(index: nat) | Dispatch

  function Lasting(list: seq<Registration>): seq<Registration> {
    if list == [] then []
    else if list[0].once then Lasting(list[1..])
    else [list[0]] + Lasting(list[1..])
  }

  /** A dispatch takes its list, and leaves only lasting registrations, before it calls anyone. */
  function Changed(l: Listeners, c: Change): Listeners {
    match c
    case Listen(once) => Listeners(l.list + [Registration(l.next, once)], l.next + 1, l.dispatched)
    case Off(index) => if index < |l.list| then l.(list := l.list[..index] + l.list[index + 1..]) else l
    case Dispatch => Listeners(Lasting(l.list), l.next, l.dispatched + [l.list])
  }

  function AfterChanges(cs: seq<Change>): Listeners {
    if cs == [] then Listeners([], 0, []) else Changed(AfterChanges(cs[..|cs| - 1]), cs[|cs| - 1])
  }
}
