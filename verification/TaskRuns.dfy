/**
  packages/js/src/scheduled-task.ts over every nesting of calls and listeners:
  what status and events keep, and exactly when a task is announced destroyed
  once.
 */
module TaskRuns {
  import opened Wrappers
  import opened TaskSteps

  function Times(log: seq<Emitted>, event: Emitted): nat {
    if log == [] then 0 else Times(log[..|log| - 1], event) + if log[|log| - 1] == event then 1 else 0
  }

  function Waiting(calls: seq<Frame>): nat {
    Count(calls, Destroying)
  }

  lemma TimesPlus(log: seq<Emitted>, event: Emitted, other: Emitted)
    ensures Times(log + [event], other) == Times(log, other) + if event == other then 1 else 0
  {
    assert (log + [event])[..|log|] == log;
  }

  lemma WaitingPlus(calls: seq<Frame>, left: Frame)
    ensures Waiting(calls + [left]) == Waiting(calls) + if left.Destroying? then 1 else 0
  {
    assert (calls + [left])[..|calls|] == calls;
  }

  /** Whether an event calls destroy() on a task that is not destroyed. */
  predicate Destroys(s: State, e: Event) {
    !s.status.Destroyed? &&
    (e.OnDestroy? || (e.OnReturn? && s.calls != [] && s.calls[|s.calls| - 1].Reaching?))
  }

  /** How often destroy() was called on the task while it was not destroyed. */
  function Destructions(es: seq<Event>, max: Option<int>): nat {
    if es == [] then 0
    else Destructions(es[..|es| - 1], max) + if Destroys(After(es[..|es| - 1], max), es[|es| - 1]) then 1 else 0
  }

  lemma EmitCounts(s: State, event: Emitted, left: Frame)
    ensures var next := Emitting(s, event, left);
            && Times(next.log, TaskDestroyed) == Times(s.log, TaskDestroyed) + (if event.TaskDestroyed? then 1 else 0)
            && Waiting(next.calls) == Waiting(s.calls) + if left.Destroying? then 1 else 0
  {
    TimesPlus(s.log, event, TaskDestroyed);
    WaitingPlus(s.calls, left);
  }

  lemma DestroyCounts(s: State)
    ensures var next := Destroy(s);
            Times(next.log, TaskDestroyed) + Waiting(next.calls) ==
            Times(s.log, TaskDestroyed) + Waiting(s.calls) + if s.status.Destroyed? then 0 else 1
  {
    EmitCounts(s.(status := Stopped), TaskStopped, Destroying);
    EmitCounts(s.(status := Destroyed), TaskDestroyed, Plain);
  }

  lemma ReturnCounts(s: State)
    requires s.calls != []
    ensures var next := Return(s);
            Times(next.log, TaskDestroyed) + Waiting(next.calls) ==
            Times(s.log, TaskDestroyed) + Waiting(s.calls) + if Destroys(s, OnReturn) then 1 else 0
  {
    var outer := s.(calls := s.calls[..|s.calls| - 1]);
    EmitCounts(outer.(status := Destroyed), TaskDestroyed, Plain);
    DestroyCounts(outer);
  }

  lemma StepCounts(s: State, e: Event, max: Option<int>)
    ensures var next := Step(s, e, max);
            Times(next.log, TaskDestroyed) + Waiting(next.calls) ==
            Times(s.log, TaskDestroyed) + Waiting(s.calls) + if Destroys(s, e) then 1 else 0
  {
    match e
    case OnStart => EmitCounts(s.(status := Idle), TaskStarted, Plain);
    case OnStop => EmitCounts(s.(status := Stopped), TaskStopped, Plain);
    case OnDestroy => DestroyCounts(s);
    case OnBegin(_) =>
    case OnSettle(_, _) =>
      WaitingPlus(s.calls, Finishing);
      EmitCounts(s.(calls := s.calls + [Finishing]), MaxReached, Reaching);
    case OnReturn => if s.calls != [] { ReturnCounts(s); }
  }

  /** Each call of destroy() that finds the task alive announces it destroyed once, now or when its listeners return. */
  lemma {:induction false} AnnouncedPerDestruction(es: seq<Event>, max: Option<int>)
    ensures var s := After(es, max);
            Times(s.log, TaskDestroyed) + Waiting(s.calls) == Destructions(es, max)
  {
    if es == [] {
      assert Times([], TaskDestroyed) == 0 && Waiting([]) == 0;
    } else {
      AnnouncedPerDestruction(es[..|es| - 1], max);
      StepCounts(After(es[..|es| - 1], max), es[|es| - 1], max);
    }
  }

  /** A listener destroys a task that an outer destroy() is still stopping. */
  predicate Reenters(s: State, e: Event) {
    Destroys(s, e) && Waiting(s.calls) > 0
  }

  predicate NeverReenters(es: seq<Event>, max: Option<int>) {
    es == [] || (NeverReenters(es[..|es| - 1], max) && !Reenters(After(es[..|es| - 1], max), es[|es| - 1]))
  }

  /** A task being destroyed is destroyed, or an outer destroy() will make it so. */
  ghost predicate Doomed(es: seq<Event>, max: Option<int>) {
    Destructions(es, max) > 0 ==> After(es, max).status.Destroyed? || Waiting(After(es, max).calls) > 0
  }

  lemma ReturnDooms(s: State)
    requires s.calls != [] && (s.status.Destroyed? || Waiting(s.calls) > 0)
    ensures Return(s).status.Destroyed? || Waiting(Return(s).calls) > 0
  {
    var outer := s.(calls := s.calls[..|s.calls| - 1]);
    EmitCounts(outer.(status := Stopped), TaskStopped, Destroying);
  }

  lemma SettleDooms(s: State, scheduled: bool, succeeded: bool, max: Option<int>)
    ensures Settle(s, scheduled, succeeded, max).status == s.status
    ensures Waiting(Settle(s, scheduled, succeeded, max).calls) == Waiting(s.calls)
  {
    WaitingPlus(s.calls, Finishing);
    EmitCounts(s.(calls := s.calls + [Finishing]), MaxReached, Reaching);
  }

  lemma StepDooms(s: State, e: Event, max: Option<int>)
    requires s.status.Destroyed? || Waiting(s.calls) > 0
    ensures var next := Step(s, e, max); next.status.Destroyed? || Waiting(next.calls) > 0
  {
    match e
    case OnStart => EmitCounts(s.(status := Idle), TaskStarted, Plain);
    case OnStop => EmitCounts(s.(status := Stopped), TaskStopped, Plain);
    case OnDestroy => EmitCounts(s.(status := Stopped), TaskStopped, Destroying);
    case OnBegin(_) =>
    case OnSettle(scheduled, succeeded) => SettleDooms(s, scheduled, succeeded, max);
    case OnReturn => if s.calls != [] { ReturnDooms(s); }
  }

  lemma DestroyDooms(s: State, e: Event, max: Option<int>)
    requires Destroys(s, e)
    ensures var next := Step(s, e, max); next.status.Destroyed? || Waiting(next.calls) > 0
  {
    EmitCounts(s.(status := Stopped), TaskStopped, Destroying);
    if e.OnReturn? {
      EmitCounts(s.(calls := s.calls[..|s.calls| - 1], status := Stopped), TaskStopped, Destroying);
    }
  }

  lemma {:induction false} RunDooms(es: seq<Event>, max: Option<int>)
    ensures Doomed(es, max)
  {
    if es != [] {
      var before, e := es[..|es| - 1], es[|es| - 1];
      RunDooms(before, max);
      if Destructions(before, max) > 0 {
        StepDooms(After(before, max), e, max);
      } else if Destroys(After(before, max), e) {
        DestroyDooms(After(before, max), e, max);
      }
    }
  }

  lemma {:induction false} OneDestructionExactly(es: seq<Event>, max: Option<int>)
    ensures Destructions(es, max) <= 1 <==> NeverReenters(es, max)
  {
    if es != [] {
      var before, e := es[..|es| - 1], es[|es| - 1];
      OneDestructionExactly(before, max);
      RunDooms(before, max);
      AnnouncedPerDestruction(before, max);
    }
  }

  /**
    Once every call has returned, the task was announced destroyed at most once
    exactly when no listener destroyed it while a destroy() was stopping it.
   */
  lemma AnnouncedOnceExactly(es: seq<Event>, max: Option<int>)
    requires After(es, max).calls == []
    ensures Times(After(es, max).log, TaskDestroyed) <= 1 <==> NeverReenters(es, max)
  {
    AnnouncedPerDestruction(es, max);
    OneDestructionExactly(es, max);
  }

  lemma AfterOne(es: seq<Event>, e: Event, max: Option<int>)
    ensures After(es + [e], max) == Step(After(es, max), e, max)
  {
    assert (es + [e])[..|es|] == es;
  }

  lemma StartsFirst()
    ensures After([] + [OnStart] + [OnReturn], None) == State(Idle, 0, 0, [], [TaskStarted])
  {
    AfterOne([], OnStart, None);
    AfterOne([] + [OnStart], OnReturn, None);
    assert After([] + [OnStart], None) == State(Idle, 0, 0, [Plain], [TaskStarted]);
  }

  /** The task is started, and destroy() is called twice, the second time by a task:stopped listener. */
  lemma DestroyedInside()
    ensures After([] + [OnStart] + [OnReturn] + [OnDestroy] + [OnDestroy], None)
            == State(Destroyed, 0, 0, [Destroying, Plain], [TaskStarted, TaskStopped, TaskDestroyed])
  {
    StartsFirst();
    var es := [] + [OnStart] + [OnReturn];
    AfterOne(es, OnDestroy, None);
    assert After(es + [OnDestroy], None) == State(Stopped, 0, 0, [Destroying], [TaskStarted, TaskStopped]);
    AfterOne(es + [OnDestroy], OnDestroy, None);
  }

  /** A task:stopped listener that calls destroy() hears task:destroyed twice. */
  lemma DestroyedTwice()
    ensures exists es :: After(es, None) == State(Destroyed, 0, 0, [], [TaskStarted, TaskStopped, TaskDestroyed, TaskDestroyed])
  {
    var es := [] + [OnStart] + [OnReturn] + [OnDestroy] + [OnDestroy];
    DestroyedInside();
    AfterOne(es, OnReturn, None);
    assert After(es + [OnReturn], None) == State(Destroyed, 0, 0, [Destroying], [TaskStarted, TaskStopped, TaskDestroyed]);
    AfterOne(es + [OnReturn], OnReturn, None);
    AfterOne(es + [OnReturn] + [OnReturn], OnReturn, None);
    assert After(es + [OnReturn] + [OnReturn] + [OnReturn], None)
           == State(Destroyed, 0, 0, [], [TaskStarted, TaskStopped, TaskDestroyed, TaskDestroyed]);
  }

  // ----- Status, and the order of events -----

  /** The last of the started and stopped events. */
  function LastSwitch(log: seq<Emitted>): Emitted {
    if log == [] then TaskStopped
    else if log[|log| - 1].TaskStarted? || log[|log| - 1].TaskStopped? then log[|log| - 1]
    else LastSwitch(log[..|log| - 1])
  }

  /** Starts and stops take turns, the first being a start. */
  ghost predicate Alternates(log: seq<Emitted>) {
    forall i :: 0 <= i < |log| && (log[i].TaskStarted? || log[i].TaskStopped?) ==> LastSwitch(log[..i]) != log[i]
  }

  ghost predicate SwitchFits(s: State) {
    && Alternates(s.log)
    && (s.status.Idle? ==> LastSwitch(s.log).TaskStarted?)
    && (s.status.Stopped? ==> LastSwitch(s.log).TaskStopped?)
    && (s.status.Destroyed? <==> Times(s.log, TaskDestroyed) > 0)
  }

  lemma EmitFits(s: State, event: Emitted, left: Frame)
    requires Alternates(s.log) && (event.TaskStarted? || event.TaskStopped? ==> LastSwitch(s.log) != event)
    ensures var log := Emitting(s, event, left).log;
            && Alternates(log)
            && LastSwitch(log) == (if event.TaskStarted? || event.TaskStopped? then event else LastSwitch(s.log))
            && (Times(log, TaskDestroyed) > 0 <==> Times(s.log, TaskDestroyed) > 0 || event.TaskDestroyed?)
  {
    var log := s.log + [event];
    assert log[..|s.log|] == s.log;
    TimesPlus(s.log, event, TaskDestroyed);
    forall i | 0 <= i < |log| && (log[i].TaskStarted? || log[i].TaskStopped?) ensures LastSwitch(log[..i]) != log[i] {
      if i < |s.log| {
        assert log[..i] == s.log[..i];
      }
    }
  }

  lemma DestroyFits(s: State)
    requires SwitchFits(s)
    ensures SwitchFits(Destroy(s)) && SwitchFits(DestroyedNow(s))
  {
    EmitFits(s.(status := Destroyed), TaskDestroyed, Plain);
    if s.status.Idle? {
      EmitFits(s.(status := Stopped), TaskStopped, Destroying);
    }
  }

  lemma ReturnFits(s: State)
    requires SwitchFits(s) && s.calls != []
    ensures SwitchFits(Return(s))
    ensures s.status.Destroyed? ==> Return(s).status.Destroyed?
  {
    DestroyFits(s.(calls := s.calls[..|s.calls| - 1]));
  }

  lemma SettleFits(s: State, scheduled: bool, succeeded: bool, max: Option<int>)
    requires SwitchFits(s)
    ensures SwitchFits(Settle(s, scheduled, succeeded, max))
    ensures Settle(s, scheduled, succeeded, max).status == s.status
  {
    EmitFits(s.(calls := s.calls + [Finishing]), MaxReached, Reaching);
  }

  lemma SwitchedFits(s: State)
    requires SwitchFits(s)
    ensures SwitchFits(Start(s)) && SwitchFits(Stop(s))
  {
    if s.status.Stopped? {
      EmitFits(s.(status := Idle), TaskStarted, Plain);
    } else if s.status.Idle? {
      EmitFits(s.(status := Stopped), TaskStopped, Plain);
    }
  }

  lemma StepFits(s: State, e: Event, max: Option<int>)
    requires SwitchFits(s)
    ensures SwitchFits(Step(s, e, max))
    ensures s.status.Destroyed? ==> Step(s, e, max).status.Destroyed?
  {
    match e
    case OnStart => SwitchedFits(s);
    case OnStop => SwitchedFits(s);
    case OnDestroy => DestroyFits(s);
    case OnBegin(_) =>
    case OnSettle(scheduled, succeeded) => SettleFits(s, scheduled, succeeded, max);
    case OnReturn => if s.calls != [] { ReturnFits(s); }
  }

  /** At any depth of listeners: starts and stops take turns, and destroyed is announced, and then for good. */
  lemma {:induction false} StatusFits(es: seq<Event>, max: Option<int>)
    ensures SwitchFits(After(es, max))
    ensures forall e :: After(es, max).status.Destroyed? ==> Step(After(es, max), e, max).status.Destroyed?
  {
    if es == [] {
      assert Times([], TaskDestroyed) == 0;
    } else {
      StatusFits(es[..|es| - 1], max);
      StepFits(After(es[..|es| - 1], max), es[|es| - 1], max);
    }
    forall e ensures After(es, max).status.Destroyed? ==> Step(After(es, max), e, max).status.Destroyed? {
      StepFits(After(es, max), e, max);
    }
  }

  // ----- Runs -----

  function Begun(es: seq<Event>): nat {
    if es == [] then 0
    else Begun(es[..|es| - 1]) + if es[|es| - 1].OnBegin? && es[|es| - 1].scheduled then 1 else 0
  }

  /** Whether an event ends a scheduled run: its finally. */
  predicate Ends(s: State, e: Event, max: Option<int>) {
    (e.OnSettle? && MaySettle(s, e.scheduled) && !Reaches(s, e.succeeded, max))
    || (e.OnReturn? && s.calls != [] && s.calls[|s.calls| - 1].Finishing?)
  }

  function Ended(es: seq<Event>, max: Option<int>): nat {
    if es == [] then 0
    else Ended(es[..|es| - 1], max) + if Ends(After(es[..|es| - 1], max), es[|es| - 1], max) then 1 else 0
  }

  lemma FinishingPlus(calls: seq<Frame>, left: Frame)
    ensures Count(calls + [left], Finishing) == Count(calls, Finishing) + if left.Finishing? then 1 else 0
  {
    assert (calls + [left])[..|calls|] == calls;
  }

  lemma EmitBusy(s: State, event: Emitted, left: Frame)
    ensures var next := Emitting(s, event, left);
            Count(next.calls, Finishing) == Count(s.calls, Finishing) + if left.Finishing? then 1 else 0
  {
    FinishingPlus(s.calls, left);
  }

  lemma DestroyBusy(s: State)
    ensures Count(Destroy(s).calls, Finishing) == Count(s.calls, Finishing)
    ensures Count(DestroyedNow(s).calls, Finishing) == Count(s.calls, Finishing)
  {
    EmitBusy(s.(status := Stopped), TaskStopped, Destroying);
    EmitBusy(s.(status := Destroyed), TaskDestroyed, Plain);
  }

  lemma ReturnBusy(s: State)
    requires Count(s.calls, Finishing) <= s.busy && s.calls != []
    ensures var next := Return(s);
            && Count(next.calls, Finishing) <= next.busy && next.runs == s.runs
            && next.busy == s.busy - if s.calls[|s.calls| - 1].Finishing? then 1 else 0
  {
    DestroyBusy(s.(calls := s.calls[..|s.calls| - 1]));
  }

  lemma StepBusy(s: State, e: Event, max: Option<int>)
    requires Count(s.calls, Finishing) <= s.busy
    ensures var next := Step(s, e, max);
            && Count(next.calls, Finishing) <= next.busy
            && next.busy == s.busy + (if e.OnBegin? && e.scheduled then 1 else 0) - (if Ends(s, e, max) then 1 else 0)
            && next.runs == s.runs + if e.OnBegin? && e.scheduled then 1 else 0
  {
    match e
    case OnStart => EmitBusy(s.(status := Idle), TaskStarted, Plain);
    case OnStop => EmitBusy(s.(status := Stopped), TaskStopped, Plain);
    case OnDestroy => DestroyBusy(s);
    case OnBegin(_) =>
    case OnSettle(_, _) =>
      FinishingPlus(s.calls, Finishing);
      EmitBusy(s.(calls := s.calls + [Finishing]), MaxReached, Reaching);
    case OnReturn => if s.calls != [] { ReturnBusy(s); }
  }

  /**
    The busy count is the number of scheduled runs in flight, never negative,
    and the run count is the number ever begun, whatever listeners do.
   */
  lemma {:induction false} RunsAreCounted(es: seq<Event>, max: Option<int>)
    ensures var s := After(es, max);
            && 0 <= s.busy && s.busy == Begun(es) - Ended(es, max) && s.runs == Begun(es)
            && Count(s.calls, Finishing) <= s.busy
  {
    if es == [] {
      assert Count([], Finishing) == 0;
    } else {
      RunsAreCounted(es[..|es| - 1], max);
      StepBusy(After(es[..|es| - 1], max), es[|es| - 1], max);
    }
  }

  /** How many scheduled runs' callbacks have settled. */
  function Settled(es: seq<Event>, max: Option<int>): nat {
    if es == [] then 0
    else
      var e := es[|es| - 1];
      Settled(es[..|es| - 1], max) + if e.OnSettle? && MaySettle(After(es[..|es| - 1], max), e.scheduled) then 1 else 0
  }

  /** The scheduled runs in progress: begun, and their callbacks not settled. */
  function InProgress(s: State): int {
    s.busy - Count(s.calls, Finishing)
  }

  lemma SettleSettles(s: State, scheduled: bool, succeeded: bool, max: Option<int>)
    ensures InProgress(Settle(s, scheduled, succeeded, max)) == InProgress(s) - if MaySettle(s, scheduled) then 1 else 0
  {
    FinishingPlus(s.calls, Finishing);
    EmitBusy(s.(calls := s.calls + [Finishing]), MaxReached, Reaching);
  }

  lemma ReturnSettles(s: State)
    requires s.calls != []
    ensures InProgress(Return(s)) == InProgress(s)
  {
    DestroyBusy(s.(calls := s.calls[..|s.calls| - 1]));
  }

  lemma StepSettles(s: State, e: Event, max: Option<int>)
    ensures InProgress(Step(s, e, max)) == InProgress(s)
              + (if e.OnBegin? && e.scheduled then 1 else 0) - (if e.OnSettle? && MaySettle(s, e.scheduled) then 1 else 0)
  {
    match e
    case OnStart => EmitBusy(s.(status := Idle), TaskStarted, Plain);
    case OnStop => EmitBusy(s.(status := Stopped), TaskStopped, Plain);
    case OnDestroy => DestroyBusy(s);
    case OnBegin(_) =>
    case OnSettle(scheduled, succeeded) => SettleSettles(s, scheduled, succeeded, max);
    case OnReturn => if s.calls != [] { ReturnSettles(s); }
  }

  /** The busy count is that of the callbacks in progress, and of the settled ones whose listeners still run: of none once all calls returned. */
  lemma {:induction false} BusyExactly(es: seq<Event>, max: Option<int>)
    ensures var s := After(es, max); s.busy == Begun(es) - Settled(es, max) + Count(s.calls, Finishing)
    ensures var s := After(es, max); s.calls == [] ==> s.busy == Begun(es) - Settled(es, max)
  {
    if es == [] {
      assert Count([], Finishing) == 0;
    } else {
      BusyExactly(es[..|es| - 1], max);
      StepSettles(After(es[..|es| - 1], max), es[|es| - 1], max);
    }
  }

  /** What a step appends to the log, by the status it finds and not by what the call does to it. */
  function Announces(s: State, e: Event, begun: nat, max: Option<int>): seq<Emitted> {
    var top := if s.calls == [] then Plain else s.calls[|s.calls| - 1];
    if e.OnStart? && s.status.Stopped? then [TaskStarted]
    else if e.OnStop? && s.status.Idle? then [TaskStopped]
    else if (e.OnDestroy? || (e.OnReturn? && top.Reaching?)) && !s.status.Destroyed? then
      (if s.status.Idle? then [TaskStopped] else [TaskDestroyed])
    else if e.OnReturn? && top.Destroying? then [TaskDestroyed]
    else if e.OnSettle? && e.scheduled && e.succeeded && s.busy > Count(s.calls, Finishing)
         && max.Some? && 0 < max.value <= begun then [MaxReached]
    else []
  }

  /** The status a step leaves, by the events it announces. */
  function StatusBy(before: Status, announced: seq<Emitted>): Status {
    if announced == [] then before
    else
      match announced[0]
      case TaskStarted => Idle
      case TaskStopped => Stopped
      case TaskDestroyed => Destroyed
      case MaxReached => before
  }

  /** The step does to log and status what it announces. */
  ghost predicate Announced(s: State, next: State, announced: seq<Emitted>) {
    next.log == s.log + announced && next.status == StatusBy(s.status, announced)
  }

  lemma DestroyAnnounces(s: State)
    ensures Announced(s, Destroy(s), if s.status.Destroyed? then [] else if s.status.Idle? then [TaskStopped] else [TaskDestroyed])
    ensures Announced(s, DestroyedNow(s), [TaskDestroyed])
  {
    assert s.log + [] == s.log;
  }

  lemma ReturnAnnounces(s: State, begun: nat, max: Option<int>)
    ensures Announced(s, Return(s), Announces(s, OnReturn, begun, max))
  {
    assert s.log + [] == s.log;
    if s.calls != [] {
      DestroyAnnounces(s.(calls := s.calls[..|s.calls| - 1]));
    }
  }

  lemma StepAnnounces(s: State, e: Event, max: Option<int>)
    ensures Announced(s, Step(s, e, max), Announces(s, e, s.runs, max))
  {
    assert s.log + [] == s.log;
    match e
    case OnDestroy => DestroyAnnounces(s);
    case OnReturn => ReturnAnnounces(s, s.runs, max);
    case _ =>
  }

  /**
    On every run: which event each call announces, and the status it leaves. In
    particular maxReached exactly when a scheduled run succeeds and as many runs
    as allowed have begun.
   */
  lemma AnnouncesExactly(es: seq<Event>, e: Event, max: Option<int>)
    ensures var s, next, announced := After(es, max), After(es + [e], max), Announces(After(es, max), e, Begun(es), max);
            next.log == s.log + announced && next.status == StatusBy(s.status, announced)
  {
    AfterOne(es, e, max);
    RunsAreCounted(es, max);
    StepAnnounces(After(es, max), e, max);
  }

  /** What every step keeps of a task. */
  ghost predicate Sound(s: State) {
    SwitchFits(s) && Count(s.calls, Finishing) <= s.busy
  }

  lemma StepSound(s: State, e: Event, max: Option<int>)
    requires Sound(s)
    ensures Sound(Step(s, e, max))
  {
    StepFits(s, e, max);
    StepBusy(s, e, max);
  }

  // ----- Listeners -----

  predicate Has(list: seq<Registration>, id: nat) {
    exists i :: 0 <= i < |list| && list[i].id == id
  }

  ghost predicate Distinct(list: seq<Registration>) {
    forall i, j :: 0 <= i < j < |list| ==> list[i].id != list[j].id
  }

  /** A list of numbered registrations, and what dispatches took of those asked for once. */
  ghost predicate ListenersSound(l: Listeners) {
    && Distinct(l.list) && (forall i :: 0 <= i < |l.list| ==> l.list[i].id < l.next)
    && (forall d, i :: 0 <= d < |l.dispatched| && 0 <= i < |l.dispatched[d]| ==> l.dispatched[d][i].id < l.next)
    && (forall d, i :: 0 <= d < |l.dispatched| && 0 <= i < |l.dispatched[d]| && l.dispatched[d][i].once ==>
          !Has(l.list, l.dispatched[d][i].id) && OnlyIn(l.dispatched, d, i))
  }

  /** A dispatched registration is in one dispatch, at one place. */
  ghost predicate OnlyIn(dispatched: seq<seq<Registration>>, d: nat, i: nat)
    requires d < |dispatched| && i < |dispatched[d]|
  {
    forall e, j :: 0 <= e < |dispatched| && 0 <= j < |dispatched[e]| && dispatched[e][j] == dispatched[d][i] ==>
      e == d && j == i
  }

  lemma {:induction false} LastingKeeps(list: seq<Registration>)
    requires Distinct(list)
    ensures Distinct(Lasting(list))
    ensures forall id :: Has(Lasting(list), id) ==> Has(list, id)
    ensures forall i :: 0 <= i < |list| && list[i].once ==> !Has(Lasting(list), list[i].id)
  {
    if list != [] {
      var rest := list[1..];
      LastingKeeps(rest);
      forall id | Has(Lasting(list), id) ensures Has(list, id) {
        if list[0].id != id {
          LastingTail(list, id);
          var i :| 0 <= i < |rest| && rest[i].id == id;
          assert list[i + 1].id == id;
        }
      }
      assert !Has(rest, list[0].id);
      forall i | 0 <= i < |list| && list[i].once ensures !Has(Lasting(list), list[i].id) {
        if Has(Lasting(list), list[i].id) {
          if i > 0 {
            assert rest[i - 1] == list[i];
            LastingTail(list, list[i].id);
          }
        }
      }
      LastingDistinct(list);
    }
  }

  lemma LastingTail(list: seq<Registration>, id: nat)
    requires list != [] && Has(Lasting(list), id) && (list[0].id != id || list[0].once)
    ensures Has(Lasting(list[1..]), id)
  {
    var rest := Lasting(list[1..]);
    if list[0].once {
      assert Lasting(list) == rest;
    } else {
      assert Lasting(list) == [list[0]] + rest;
      var i :| 0 <= i < |Lasting(list)| && Lasting(list)[i].id == id;
      assert rest[i - 1].id == id;
    }
  }

  lemma LastingDistinct(list: seq<Registration>)
    requires list != [] && Distinct(Lasting(list[1..])) && !Has(Lasting(list[1..]), list[0].id)
    ensures Distinct(Lasting(list))
  {
  }

  lemma ListenSound(l: Listeners, once: bool)
    requires ListenersSound(l)
    ensures ListenersSound(Changed(l, Listen(once)))
  {
    var list := l.list + [Registration(l.next, once)];
    forall id: nat | Has(list, id) && id < l.next ensures Has(l.list, id) {
      var i :| 0 <= i < |list| && list[i].id == id;
      assert l.list[i].id == id;
    }
  }

  lemma OffSound(l: Listeners, index: nat)
    requires ListenersSound(l) && index < |l.list|
    ensures ListenersSound(Changed(l, Off(index)))
  {
    var list := l.list[..index] + l.list[index + 1..];
    forall id: nat | Has(list, id) ensures Has(l.list, id) {
      var i :| 0 <= i < |list| && list[i].id == id;
      assert l.list[if i < index then i else i + 1].id == id;
    }
  }

  lemma DispatchSound(l: Listeners)
    requires ListenersSound(l)
    ensures ListenersSound(Changed(l, Dispatch))
  {
    LastingKeeps(l.list);
    var next := Changed(l, Dispatch);
    assert forall i :: 0 <= i < |l.list| ==> Has(l.list, l.list[i].id);
    forall i | 0 <= i < |next.list| ensures next.list[i].id < l.next {
      assert Has(next.list, next.list[i].id);
    }
  }

  lemma {:induction false} ListenersStaySound(cs: seq<Change>)
    ensures ListenersSound(AfterChanges(cs))
  {
    if cs != [] {
      var l, c := AfterChanges(cs[..|cs| - 1]), cs[|cs| - 1];
      ListenersStaySound(cs[..|cs| - 1]);
      match c
      case Listen(once) => ListenSound(l, once);
      case Off(index) => if index < |l.list| { OffSound(l, index); }
      case Dispatch => DispatchSound(l);
    }
  }

  /**
    A once registration is called in at most one dispatch and once there,
    however listeners are added and removed, and even if a listener emits again.
   */
  lemma OnceIsCalledOnce(cs: seq<Change>, d: nat, i: nat, e: nat, j: nat)
    requires var dispatched := AfterChanges(cs).dispatched;
             && d < |dispatched| && i < |dispatched[d]| && e < |dispatched| && j < |dispatched[e]|
             && dispatched[d][i].once && dispatched[e][j] == dispatched[d][i]
    ensures d == e && i == j
  {
    ListenersStaySound(cs);
  }
}
