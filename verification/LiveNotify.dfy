/**
  apps/runwisp/cmd/runwisp/daemon_notify.go: replacing the notification service
  while the daemon runs, and stopping it. swap and the first part of Stop hold
  the mutex, so each is one step; the services a swap replaced drain meanwhile.
 */
module LiveNotify {
  import opened Wrappers

  /** How far Stop is: its service is being stopped, it waits for the draining ones, or it has returned. */
  datatype Stopping = NotYet | StoppingService(service: Option<nat>) | WaitingForDrains | Returned

  /**
    Services are numbered. subscribed are those that hear events, draining those
    a swap replaced that have not stopped, retiring the wait group's count.
    moments are the sets of subscribers there were, one after each change.
   */
  datatype State = State(service: Option<nat>, stopped: bool, retiring: int, subscribed: set<nat>, draining: set<nat>,
                         used: set<nat>, moments: seq<set<nat>>, stopping: Stopping)

  const INITIAL := State(None, false, 0, {}, {}, {}, [], NotYet)

  function Subscribers(st: State, subscribed: set<nat>): State {
    st.(subscribed := subscribed, moments := st.moments + [subscribed])
  }

  /** swap: next starts before the old one detaches. */
  function Swapped(st: State, next: Option<nat>): State {
    if st.stopped then st
    else
      var started := if next.Some? then Subscribers(st, st.subscribed + {next.value}).(used := st.used + {next.value}) else st;
      var replaced := started.(service := next);
      if st.service.None? then replaced
      else
        var previous := st.service.value;
        Subscribers(replaced, replaced.subscribed - {previous})
          .(draining := st.draining + {previous}, retiring := st.retiring + 1)
  }

  datatype Event =
    | OnSwap(next: Option<nat>)
    | OnDrained(service: nat)
    | OnStop
    | OnServiceStopped
    | OnReturn

  /** Each swap brings a service of its own; Stop returns once the wait group is empty. */
  predicate Enabled(st: State, e: Event) {
    match e
    case OnSwap(next) => next.Some? ==> next.value !in st.used
    case OnDrained(service) => service in st.draining
    case OnStop => st.stopping.NotYet?
    case OnServiceStopped => st.stopping.StoppingService?
    case OnReturn => st.stopping.WaitingForDrains? && st.retiring <= 0
  }

  function Step(st: State, e: Event): State {
    match e
    case OnSwap(next) => Swapped(st, next)
    case OnDrained(service) => st.(draining := st.draining - {service}, retiring := st.retiring - 1)
    case OnStop => st.(stopped := true, stopping := StoppingService(st.service))
    case OnServiceStopped =>
      var svc := st.stopping;
      if svc.StoppingService? && svc.service.Some?
      then Subscribers(st, st.subscribed - {svc.service.value}).(stopping := WaitingForDrains)
      else st.(stopping := WaitingForDrains)
    case OnReturn => st.(stopping := Returned)
  }

  class Notifier {
    var service: Option<nat>
    var stopped: bool
    var retiring: int
    ghost var subscribed: set<nat>
    ghost var draining: set<nat>
    ghost var used: set<nat>
    ghost var moments: seq<set<nat>>
    ghost var stopping: Stopping

    ghost function View(): State
      reads this
    {
      State(service, stopped, retiring, subscribed, draining, used, moments, stopping)
    }

    /** What every step keeps. */
    ghost predicate Valid()
      reads this
    {
      Sound(View())
    }

    constructor ()
      ensures Valid() && View() == INITIAL
    {
      service, stopped, retiring := None, false, 0;
      subscribed, draining, used, moments, stopping := {}, {}, {}, [], NotYet;
    }

    /** Each swap brings a service of its own. */
    method Swap(next: Option<nat>)
      requires Valid() && (next.Some? ==> next.value !in used)
      modifies this
      ensures Valid() && View() == Swapped(old(View()), next)
    {
      SwapSound(View(), next);
      if !stopped {
        Replace(next);
      }
    }

    method Replace(next: Option<nat>)
      requires !stopped
      modifies `service, `retiring, `subscribed, `draining, `used, `moments
      ensures View() == Swapped(old(View()), next)
    {
      if next.Some? {
        Subscribe(subscribed + {next.value});
        used := used + {next.value};
      }
      var previous := service;
      service := next;
      if previous.Some? {
        Subscribe(subscribed - {previous.value});
        retiring := retiring + 1;
        draining := draining + {previous.value};
      }
    }

    /** A service started or detached. */
    ghost method Subscribe(now: set<nat>)
      modifies `subscribed, `moments
      ensures View() == Subscribers(old(View()), now)
    {
      subscribed, moments := now, moments + [now];
    }

    /** Stop while it holds the mutex. */
    method BeginStop() returns (svc: Option<nat>)
      requires Valid() && stopping.NotYet?
      modifies this
      ensures Valid() && View() == Step(old(View()), OnStop) && svc == old(service)
    {
      StepSound(View(), OnStop);
      stopped := true;
      svc := service;
      stopping := StoppingService(svc);
    }
  }

  // ----- Every run -----

  function One(service: Option<nat>): set<nat> {
    if service.Some? then {service.value} else {}
  }

  /** Outside a swap, the service hears events and nothing else does, until Stop has stopped it. */
  ghost predicate Sound(st: State) {
    && st.retiring == |st.draining|
    && st.subscribed == (if st.stopping.WaitingForDrains? || st.stopping.Returned? then {} else One(st.service))
    && (st.stopping.StoppingService? ==> st.stopping.service == st.service)
    && (st.stopped <==> !st.stopping.NotYet?)
    && One(st.service) <= st.used && st.draining <= st.used && st.draining !! One(st.service)
    && (st.stopping.Returned? ==> st.draining == {})
  }

  lemma SwapSound(st: State, next: Option<nat>)
    requires Sound(st) && Enabled(st, OnSwap(next))
    ensures Sound(Swapped(st, next))
  {
    if !st.stopped && st.service.Some? {
      assert st.service.value in One(st.service);
      assert Swapped(st, next).subscribed == One(next);
    }
  }

  lemma StepSound(st: State, e: Event)
    requires Sound(st) && Enabled(st, e)
    ensures Sound(Step(st, e))
  {
    if e.OnSwap? {
      SwapSound(st, e.next);
    }
  }

  ghost predicate IsRun(states: seq<State>, es: seq<Event>) {
    && |states| == |es| + 1 && states[0] == INITIAL
    && forall i :: 0 <= i < |es| ==> Enabled(states[i], es[i]) && states[i + 1] == Step(states[i], es[i])
  }

  lemma {:induction false} RunSound(states: seq<State>, es: seq<Event>)
    requires IsRun(states, es)
    ensures Sound(states[|es|])
    decreases |es|
  {
    if es != [] {
      RunSound(states[..|es|], es[..|es| - 1]);
      StepSound(states[|es| - 1], es[|es| - 1]);
    }
  }

  /** Replacing a service by another: at every moment one hears events, and two only inside the swap. */
  lemma SwapLeavesNoGap(states: seq<State>, es: seq<Event>, next: nat)
    requires IsRun(states, es) && Enabled(states[|es|], OnSwap(Some(next)))
    requires states[|es|].service.Some? && !states[|es|].stopped
    ensures var st := states[|es|];
            && st.subscribed == {st.service.value}
            && Step(st, OnSwap(Some(next))).moments == st.moments + [{st.service.value, next}, {next}]
            && Step(st, OnSwap(Some(next))).subscribed == {next}
            && Step(st, OnSwap(Some(next))).draining == st.draining + {st.service.value}
  {
    var st := states[|es|];
    RunSound(states, es);
    assert st.service.value in One(st.service);
    var both := {st.service.value, next};
    assert both == st.subscribed + {next} && {next} == both - {st.service.value};
    assert st.moments + [both] + [{next}] == st.moments + [both, {next}];
  }

  /** When Stop has returned, nothing drains or hears events, and no swap changes that any more. */
  lemma StopWaitsForAll(states: seq<State>, es: seq<Event>, next: Option<nat>)
    requires IsRun(states, es) && states[|es|].stopping.Returned?
    ensures states[|es|].draining == {} && states[|es|].subscribed == {}
    ensures Step(states[|es|], OnSwap(next)) == states[|es|]
  {
    RunSound(states, es);
  }

  /** Stop waits for the replaced services once its own has stopped, and returns once they have. */
  lemma StopAdvances(states: seq<State>, es: seq<Event>)
    requires IsRun(states, es)
    ensures var st := states[|es|];
            && (st.stopping.StoppingService? ==>
                  Enabled(st, OnServiceStopped) && Step(st, OnServiceStopped).stopping.WaitingForDrains?
                  && Step(st, OnServiceStopped).subscribed == {})
            && (st.stopping.WaitingForDrains? && st.draining == {} ==>
                  Enabled(st, OnReturn) && Step(st, OnReturn).stopping.Returned?)
            && (st.stopping.NotYet? ==> Enabled(st, OnStop) && Step(st, OnStop).stopping == StoppingService(st.service))
  {
    RunSound(states, es);
    if states[|es|].stopping.StoppingService? {
      StepSound(states[|es|], OnServiceStopped);
    }
  }

  /** Stop is never stuck: it may go on, or a service it waits for may still end. */
  lemma StopGoesOn(states: seq<State>, es: seq<Event>)
    requires IsRun(states, es) && states[|es|].stopping.WaitingForDrains?
    ensures Enabled(states[|es|], OnReturn) || exists service :: Enabled(states[|es|], OnDrained(service))
  {
    var st := states[|es|];
    RunSound(states, es);
    if st.draining != {} {
      var service :| service in st.draining;
      assert Enabled(st, OnDrained(service));
    }
  }
}
