/**
  apps/runwisp/cmd/runwisp/cmd_logs.go: `logs -f`, which streams the selected
  runs and those announced later that match, in whatever order events, stream
  results and the interrupt arrive.
 */
module LogFollower {
  import opened Wrappers

  datatype Run = Run(id: string, task: string, started: bool, ended: bool)

  datatype EventKind = RunStarted | RunCompleted | RunFailed | OtherKind

  /** run is None when the event's data cannot be read. */
  datatype RunEvent = RunEvent(kind: EventKind, run: Option<Run>)

  /** What the user is told of a run: its lines, by a stream of them, or only how it ended. */
  datatype Told = Streamed(id: string) | Ended(id: string)

  /**
    tracked and active are the follower's own fields. streams counts the
    goroutines that have not handed over their result; told lists the streams
    begun and the ends reported, in order.
   */
  datatype State = State(tracked: set<string>, active: int, streams: nat, told: seq<Told>)

  function Followed(s: State, id: string): State {
    State(s.tracked + {id}, s.active + 1, s.streams + 1, s.told + [Streamed(id)])
  }

  function Reported(s: State, id: string): State {
    s.(tracked := s.tracked + {id}, told := s.told + [Ended(id)])
  }

  /** newRun: a run to tell of, None for any other event. */
  function NewRun(s: State, ev: RunEvent, matches: string -> bool): Option<Run> {
    if ev.kind.OtherKind? || ev.run.None? then None
    else if ev.run.value.id in s.tracked || !matches(ev.run.value.task) then None
    else ev.run
  }

  function EventTaken(s: State, ev: RunEvent, matches: string -> bool): State {
    var run := NewRun(s, ev, matches);
    if run.None? then s
    else if ev.kind.RunStarted? || run.value.started then Followed(s, run.value.id)
    else Reported(s, run.value.id)
  }

  function Skipping(skip: seq<Run>): State {
    State(set i | 0 <= i < |skip| :: skip[i].id, 0, 0, [])
  }

  /** A run whose log could not be read ends the start, told of or not. */
  datatype Started = Started(s: State, ok: bool)

  function StartedOne(s: State, run: Run, fails: string -> bool): Started {
    if run.ended then
      if fails(run.id) then Started(s.(tracked := s.tracked + {run.id}), false) else Started(Reported(s, run.id), true)
    else if fails(run.id) then Started(s, false)
    else Started(Followed(s, run.id), true)
  }

  function StartedAll(s: State, runs: seq<Run>, fails: string -> bool): Started
    decreases |runs|
  {
    if runs == [] then Started(s, true)
    else
      var one := StartedOne(s, runs[0], fails);
      if one.ok then StartedAll(one.s, runs[1..], fails) else one
  }

  /** As many results are awaited as streams will hand over: neither fewer, nor more, which would never come. */
  predicate Balanced(s: State) {
    s.active == s.streams
  }

  /** stop: takes the result of every stream. */
  function Stopped(s: State): State
    requires Balanced(s)
  {
    s.(active := 0, streams := 0)
  }

  function ResultTaken(s: State): State
    requires s.streams > 0
  {
    s.(active := s.active - 1, streams := s.streams - 1)
  }

  /** What the select statement finds ready. A result is there only while a stream is. */
  datatype Ready = Interrupted | Result(failed: bool) | Event(ev: RunEvent) | EventsClosed

  /** The follow after some of what was ready, and whether followLogs has returned. */
  datatype Follow = Follow(s: State, done: bool)

  predicate Going(f: Follow, events: bool) {
    !f.done && (events || f.s.active > 0)
  }

  function LoopStep(f: Follow, ready: Ready, events: bool, matches: string -> bool): (next: Follow)
    requires Balanced(f.s)
    ensures Balanced(next.s)
  {
    if !Going(f, events) then f
    else
      match ready
      case Interrupted => Follow(Stopped(f.s), true)
      case Result(failed) =>
        if f.s.streams == 0 then f
        else if failed then Follow(Stopped(ResultTaken(f.s)), true)
        else Follow(ResultTaken(f.s), false)
      case Event(ev) => if events then Follow(EventTaken(f.s, ev, matches), false) else f
      case EventsClosed => if events then Follow(Stopped(f.s), true) else f
  }

  lemma {:induction false} StartBalances(s: State, runs: seq<Run>, fails: string -> bool)
    requires Balanced(s)
    ensures Balanced(StartedAll(s, runs, fails).s)
    decreases |runs|
  {
    if runs != [] && StartedOne(s, runs[0], fails).ok {
      StartBalances(StartedOne(s, runs[0], fails).s, runs[1..], fails);
    }
  }

  /** followLogs up to its loop. */
  function Begun(runs: seq<Run>, skip: seq<Run>, fails: string -> bool): (f: Follow)
    ensures Balanced(f.s)
  {
    StartBalances(Skipping(skip), runs, fails);
    var start := StartedAll(Skipping(skip), runs, fails);
    if start.ok then Follow(start.s, false) else Follow(Stopped(start.s), true)
  }

  /** The follow after everything in readies was ready, in that order. */
  function After(begun: Follow, readies: seq<Ready>, events: bool, matches: string -> bool): (f: Follow)
    requires Balanced(begun.s)
    ensures Balanced(f.s)
  {
    if readies == [] then begun
    else LoopStep(After(begun, readies[..|readies| - 1], events, matches), readies[|readies| - 1], events, matches)
  }

  // ----- The follower -----

  class Follower {
    const matches: string -> bool
    var tracked: set<string>
    var active: int
    ghost var streams: nat
    ghost var told: seq<Told>

    ghost function View(): State
      reads this
    {
      State(tracked, active, streams, told)
    }

    constructor (skip: seq<Run>, matches: string -> bool)
      ensures View() == Skipping(skip) && this.matches == matches
    {
      this.matches := matches;
      tracked, active, streams, told := set i | 0 <= i < |skip| :: skip[i].id, 0, 0, [];
    }

    method FollowRun(id: string)
      modifies this
      ensures View() == Followed(old(View()), id)
    {
      tracked := tracked + {id};
      active := active + 1;
      streams, told := streams + 1, told + [Streamed(id)];
    }

    method Start(runs: seq<Run>, fails: string -> bool) returns (ok: bool)
      modifies this
      ensures Started(View(), ok) == StartedAll(old(View()), runs, fails)
    {
      var i := 0;
      while i < |runs|
        invariant 0 <= i <= |runs|
        invariant StartedAll(View(), runs[i..], fails) == StartedAll(old(View()), runs, fails)
      {
        var run := runs[i];
        assert runs[i..][1..] == runs[i + 1..] && runs[i..][0] == run;
        i := i + 1;
        if run.ended {
          tracked := tracked + {run.id};
          if fails(run.id) {
            return false;
          }
          told := told + [Ended(run.id)];
          continue;
        }
        if fails(run.id) {
          return false;
        }
        FollowRun(run.id);
      }
      ok := true;
    }

    method OnEvent(ev: RunEvent)
      modifies this
      ensures View() == EventTaken(old(View()), ev, matches)
    {
      if ev.kind.OtherKind? || ev.run.None? {
        return;
      }
      var run := ev.run.value;
      if run.id in tracked || !matches(run.task) {
        return;
      }
      if ev.kind.RunStarted? || run.started {
        FollowRun(run.id);
      } else {
        tracked := tracked + {run.id};
        told := told + [Ended(run.id)];
      }
    }

    /** Each receive needs a stream that still has its result to give. */
    method Stop()
      requires Balanced(View())
      modifies this
      ensures View() == Stopped(old(View()))
    {
      while active > 0
        invariant Balanced(View()) && tracked == old(tracked) && told == old(told)
      {
        streams := streams - 1;
        active := active - 1;
      }
    }
  }

  /** followLogs, for as much as was ready. */
  method FollowLogs(runs: seq<Run>, skip: seq<Run>, fails: string -> bool, readies: seq<Ready>, events: bool,
                    matches: string -> bool)
    returns (fl: Follower, done: bool)
    ensures fresh(fl) && Follow(fl.View(), done) == After(Begun(runs, skip, fails), readies, events, matches)
  {
    fl := new Follower(skip, matches);
    var ok := fl.Start(runs, fails);
    StartBalances(Skipping(skip), runs, fails);
    if !ok {
      fl.Stop();
    }
    done := !ok;
    for i := 0 to |readies|
      invariant fresh(fl) && fl.matches == matches
      invariant Follow(fl.View(), done) == After(Begun(runs, skip, fails), readies[..i], events, matches)
    {
      assert readies[..i + 1][..i] == readies[..i];
      if done || !(events || fl.active > 0) {
        continue;
      }
      done := Select(fl, readies[i], events);
    }
    assert readies[..|readies|] == readies;
  }

  /** One round of the loop. */
  method Select(fl: Follower, ready: Ready, events: bool) returns (done: bool)
    requires Balanced(fl.View()) && Going(Follow(fl.View(), false), events)
    modifies fl
    ensures Follow(fl.View(), done) == LoopStep(Follow(old(fl.View()), false), ready, events, fl.matches)
  {
    done := false;
    match ready {
      case Interrupted =>
        fl.Stop();
        done := true;
      case Result(failed) =>
        if fl.active > 0 {
          fl.streams := fl.streams - 1;
          fl.active := fl.active - 1;
          if failed {
            fl.Stop();
            done := true;
          }
        }
      case Event(ev) =>
        if events {
          fl.OnEvent(ev);
        }
      case EventsClosed =>
        if events {
          fl.Stop();
          done := true;
        }
    }
  }

  // ----- Whole follows -----

  function Times(told: seq<Told>, id: string): nat {
    if told == [] then 0
    else Times(told[..|told| - 1], id) + if told[|told| - 1].id == id then 1 else 0
  }

  /** How often this was told. */
  function Often(told: seq<Told>, what: Told): nat {
    if told == [] then 0
    else Often(told[..|told| - 1], what) + if told[|told| - 1] == what then 1 else 0
  }

  function Occurs(runs: seq<Run>, id: string): nat {
    if runs == [] then 0 else (if runs[0].id == id then 1 else 0) + Occurs(runs[1..], id)
  }

  predicate Skips(skip: seq<Run>, id: string) {
    exists i :: 0 <= i < |skip| && skip[i].id == id
  }

  lemma TimesPlus(told: seq<Told>, other: Told, id: string)
    ensures Times(told + [other], id) == Times(told, id) + if other.id == id then 1 else 0
  {
    assert (told + [other])[..|told|] == told;
  }

  lemma OftenPlus(told: seq<Told>, other: Told, what: Told)
    ensures Often(told + [other], what) == Often(told, what) + if other == what then 1 else 0
  {
    assert (told + [other])[..|told|] == told;
  }

  lemma {:induction false} TimesAreBoth(told: seq<Told>, id: string)
    ensures Times(told, id) == Often(told, Streamed(id)) + Often(told, Ended(id))
  {
    if told != [] {
      TimesAreBoth(told[..|told| - 1], id);
    }
  }

  /** Tracked are the runs told of and the skipped ones, of those that were looked at without a failure. */
  ghost predicate TracksTold(s: State, skip: seq<Run>, id: string) {
    id in s.tracked <==> Times(s.told, id) > 0 || Skips(skip, id)
  }

  lemma {:induction false} StartTells(s: State, runs: seq<Run>, fails: string -> bool, skip: seq<Run>, id: string)
    requires StartedAll(s, runs, fails).ok && TracksTold(s, skip, id)
    ensures var after := StartedAll(s, runs, fails).s;
            Times(after.told, id) == Times(s.told, id) + Occurs(runs, id) && TracksTold(after, skip, id)
    decreases |runs|
  {
    if runs != [] {
      TimesPlus(s.told, Streamed(runs[0].id), id);
      TimesPlus(s.told, Ended(runs[0].id), id);
      StartTells(StartedOne(s, runs[0], fails).s, runs[1..], fails, skip, id);
    }
  }

  /** Whatever was ready in whatever order, a follow that returned has left no stream behind. */
  lemma {:induction false} NoStreamLeft(runs: seq<Run>, skip: seq<Run>, fails: string -> bool, readies: seq<Ready>,
                                        events: bool, matches: string -> bool)
    ensures var f := After(Begun(runs, skip, fails), readies, events, matches);
            (f.done || !Going(f, events)) ==> f.s.streams == 0
  {
    if readies != [] {
      NoStreamLeft(runs, skip, fails, readies[..|readies| - 1], events, matches);
    }
  }

  lemma EventTells(s: State, ev: RunEvent, matches: string -> bool, skip: seq<Run>, id: string)
    requires TracksTold(s, skip, id)
    ensures var next := EventTaken(s, ev, matches);
            && TracksTold(next, skip, id)
            && (if id in s.tracked then Times(next.told, id) == Times(s.told, id) else Times(next.told, id) <= 1)
  {
    if NewRun(s, ev, matches).Some? {
      TimesPlus(s.told, Streamed(ev.run.value.id), id);
      TimesPlus(s.told, Ended(ev.run.value.id), id);
    }
  }

  lemma StepTells(f: Follow, ready: Ready, events: bool, matches: string -> bool, skip: seq<Run>, id: string)
    requires Balanced(f.s) && TracksTold(f.s, skip, id)
    ensures var next := LoopStep(f, ready, events, matches).s;
            && TracksTold(next, skip, id)
            && (if id in f.s.tracked then Times(next.told, id) == Times(f.s.told, id) else Times(next.told, id) <= 1)
  {
    var next := LoopStep(f, ready, events, matches).s;
    if ready.Event? {
      EventTells(f.s, ready.ev, matches, skip, id);
    } else {
      assert next.tracked == f.s.tracked && next.told == f.s.told;
    }
  }

  lemma {:induction false} EventsTell(begun: Follow, readies: seq<Ready>, events: bool, matches: string -> bool,
                                      skip: seq<Run>, id: string)
    requires Balanced(begun.s) && TracksTold(begun.s, skip, id)
    ensures var s := After(begun, readies, events, matches).s;
            && TracksTold(s, skip, id)
            && (if id in begun.s.tracked then Times(s.told, id) == Times(begun.s.told, id) else Times(s.told, id) <= 1)
  {
    if readies != [] {
      var before := After(begun, readies[..|readies| - 1], events, matches);
      EventsTell(begun, readies[..|readies| - 1], events, matches, skip, id);
      StepTells(before, readies[|readies| - 1], events, matches, skip, id);
    }
  }

  lemma StartedTells(runs: seq<Run>, skip: seq<Run>, fails: string -> bool, id: string)
    requires StartedAll(Skipping(skip), runs, fails).ok
    ensures var s := Begun(runs, skip, fails).s;
            Times(s.told, id) == Occurs(runs, id) && TracksTold(s, skip, id)
  {
    assert Times([], id) == 0;
    StartTells(Skipping(skip), runs, fails, skip, id);
  }

  /**
    A selected run is told of as often as it was selected, a skipped one that
    was not selected never, and any other run at most once.
   */
  lemma HowOftenTold(runs: seq<Run>, skip: seq<Run>, fails: string -> bool, readies: seq<Ready>,
                     events: bool, matches: string -> bool, id: string)
    requires StartedAll(Skipping(skip), runs, fails).ok
    ensures var told := After(Begun(runs, skip, fails), readies, events, matches).s.told;
            && (Occurs(runs, id) > 0 ==> Times(told, id) == Occurs(runs, id))
            && (Occurs(runs, id) == 0 && Skips(skip, id) ==> Times(told, id) == 0)
            && (Occurs(runs, id) == 0 ==> Times(told, id) <= 1)
  {
    StartedTells(runs, skip, fails, id);
    EventsTell(Begun(runs, skip, fails), readies, events, matches, skip, id);
  }

  ghost predicate OnceEach(begun: Follow, events: bool, matches: string -> bool)
    requires Balanced(begun.s)
  {
    forall readies, id :: Times(After(begun, readies, events, matches).s.told, id) <= 1
  }

  ghost predicate SelectedOnce(runs: seq<Run>) {
    forall id :: Occurs(runs, id) <= 1
  }

  /** No run is told of twice, over any events, exactly when no run was selected twice. */
  lemma ToldOnceExactly(runs: seq<Run>, skip: seq<Run>, fails: string -> bool, events: bool, matches: string -> bool)
    requires StartedAll(Skipping(skip), runs, fails).ok
    ensures OnceEach(Begun(runs, skip, fails), events, matches) <==> SelectedOnce(runs)
  {
    var begun := Begun(runs, skip, fails);
    if SelectedOnce(runs) {
      forall readies, id ensures Times(After(begun, readies, events, matches).s.told, id) <= 1 {
        HowOftenTold(runs, skip, fails, readies, events, matches, id);
        assert Occurs(runs, id) <= 1;
      }
      assert OnceEach(begun, events, matches);
    }
    if OnceEach(begun, events, matches) {
      forall id ensures Occurs(runs, id) <= 1 {
        HowOftenTold(runs, skip, fails, [], events, matches, id);
        assert Times(After(begun, [], events, matches).s.told, id) <= 1;
      }
      assert SelectedOnce(runs);
    }
  }

  /** One running run, selected through its task and once more by its id: it is told of twice. */
  lemma ToldTwice(id: string, task: string, fails: string -> bool, readies: seq<Ready>, events: bool, matches: string -> bool)
    requires !fails(id)
    ensures var run := Run(id, task, true, false);
            && StartedAll(Skipping([]), [run, run], fails).ok
            && Times(After(Begun([run, run], [], fails), readies, events, matches).s.told, id) == 2
  {
    var run := Run(id, task, true, false);
    var once := StartedOne(Skipping([]), run, fails).s;
    assert [run, run][1..] == [run] && [run][1..] == [];
    assert StartedAll(once, [run], fails) == StartedAll(StartedOne(once, run, fails).s, [], fails);
    assert Occurs([run], id) == 1;
    HowOftenTold([run, run], [], fails, readies, events, matches, id);
  }

  /** An event that announces a run of a matching task is never missed: that run is told of unless it is skipped. */
  lemma EventIsHeeded(runs: seq<Run>, skip: seq<Run>, fails: string -> bool, readies: seq<Ready>, later: seq<Ready>,
                      matches: string -> bool, ev: RunEvent)
    requires StartedAll(Skipping(skip), runs, fails).ok
    requires !After(Begun(runs, skip, fails), readies, true, matches).done
    requires !ev.kind.OtherKind? && ev.run.Some? && matches(ev.run.value.task)
    ensures var f := After(After(Begun(runs, skip, fails), readies + [Event(ev)], true, matches), later, true, matches);
            Times(f.s.told, ev.run.value.id) > 0 || Skips(skip, ev.run.value.id)
  {
    var id, begun := ev.run.value.id, Begun(runs, skip, fails);
    StartedTells(runs, skip, fails, id);
    EventsTell(begun, readies, true, matches, skip, id);
    var before := After(begun, readies, true, matches);
    assert (readies + [Event(ev)])[..|readies|] == readies;
    StepTells(before, Event(ev), true, matches, skip, id);
    EventsTell(LoopStep(before, Event(ev), true, matches), later, true, matches, skip, id);
  }

  // ----- Streams and reports -----

  /** The runs selected with this id that have ended, or that have not. */
  function Selected(runs: seq<Run>, id: string, ended: bool): nat {
    if runs == [] then 0
    else (if runs[0].id == id && runs[0].ended == ended then 1 else 0) + Selected(runs[1..], id, ended)
  }

  lemma {:induction false} StartShows(s: State, runs: seq<Run>, fails: string -> bool, id: string)
    requires StartedAll(s, runs, fails).ok
    ensures var told := StartedAll(s, runs, fails).s.told;
            && Often(told, Streamed(id)) == Often(s.told, Streamed(id)) + Selected(runs, id, false)
            && Often(told, Ended(id)) == Often(s.told, Ended(id)) + Selected(runs, id, true)
    decreases |runs|
  {
    if runs != [] {
      var one := if runs[0].ended then Ended(runs[0].id) else Streamed(runs[0].id);
      assert StartedOne(s, runs[0], fails).s.told == s.told + [one];
      OftenPlus(s.told, one, Streamed(id));
      OftenPlus(s.told, one, Ended(id));
      StartShows(StartedOne(s, runs[0], fails).s, runs[1..], fails, id);
    }
  }

  /** A tracked run is told of no more. */
  lemma StepShowsNoMore(f: Follow, ready: Ready, events: bool, matches: string -> bool, id: string)
    requires Balanced(f.s) && id in f.s.tracked
    ensures var next := LoopStep(f, ready, events, matches).s;
            && id in next.tracked
            && Often(next.told, Streamed(id)) == Often(f.s.told, Streamed(id))
            && Often(next.told, Ended(id)) == Often(f.s.told, Ended(id))
  {
    if ready.Event? && NewRun(f.s, ready.ev, matches).Some? {
      var other := ready.ev.run.value.id;
      OftenPlus(f.s.told, Streamed(other), Streamed(id));
      OftenPlus(f.s.told, Streamed(other), Ended(id));
      OftenPlus(f.s.told, Ended(other), Streamed(id));
      OftenPlus(f.s.told, Ended(other), Ended(id));
    }
  }

  lemma {:induction false} ShowsNoMore(f: Follow, readies: seq<Ready>, events: bool, matches: string -> bool, id: string)
    requires Balanced(f.s) && id in f.s.tracked
    ensures var s := After(f, readies, events, matches).s;
            && id in s.tracked
            && Often(s.told, Streamed(id)) == Often(f.s.told, Streamed(id))
            && Often(s.told, Ended(id)) == Often(f.s.told, Ended(id))
  {
    if readies != [] {
      ShowsNoMore(f, readies[..|readies| - 1], events, matches, id);
      StepShowsNoMore(After(f, readies[..|readies| - 1], events, matches), readies[|readies| - 1], events, matches, id);
    }
  }

  lemma {:induction false} StartTracks(s: State, runs: seq<Run>, fails: string -> bool, id: string)
    requires StartedAll(s, runs, fails).ok
    ensures id in StartedAll(s, runs, fails).s.tracked <==> id in s.tracked || Occurs(runs, id) > 0
    decreases |runs|
  {
    if runs != [] {
      StartTracks(StartedOne(s, runs[0], fails).s, runs[1..], fails, id);
    }
  }

  /** Over any events: each selected run that has not ended gets a stream, each that has is reported, and nothing else. */
  lemma SelectedAreShown(runs: seq<Run>, skip: seq<Run>, fails: string -> bool, readies: seq<Ready>,
                         events: bool, matches: string -> bool, id: string)
    requires StartedAll(Skipping(skip), runs, fails).ok && Occurs(runs, id) > 0
    ensures var told := After(Begun(runs, skip, fails), readies, events, matches).s.told;
            && Often(told, Streamed(id)) == Selected(runs, id, false)
            && Often(told, Ended(id)) == Selected(runs, id, true)
  {
    assert Often([], Streamed(id)) == 0 && Often([], Ended(id)) == 0;
    StartShows(Skipping(skip), runs, fails, id);
    StartTracks(Skipping(skip), runs, fails, id);
    ShowsNoMore(Begun(runs, skip, fails), readies, events, matches, id);
  }

  /** The event announces the run, of a matching task, for the first time, and the follow still listens. */
  ghost predicate FirstHeard(runs: seq<Run>, skip: seq<Run>, fails: string -> bool, readies: seq<Ready>, matches: string -> bool,
                             ev: RunEvent) {
    && StartedAll(Skipping(skip), runs, fails).ok
    && !After(Begun(runs, skip, fails), readies, true, matches).done
    && !ev.kind.OtherKind? && ev.run.Some? && matches(ev.run.value.task)
    && !Skips(skip, ev.run.value.id)
    && Times(After(Begun(runs, skip, fails), readies, true, matches).s.told, ev.run.value.id) == 0
  }

  /**
    Over any events before and after: a newly announced run gets one stream and
    no report when it has started, and one report and no stream when it ended
    without having started.
   */
  lemma NewRunIsShown(runs: seq<Run>, skip: seq<Run>, fails: string -> bool, readies: seq<Ready>, later: seq<Ready>,
                      matches: string -> bool, ev: RunEvent)
    requires FirstHeard(runs, skip, fails, readies, matches, ev)
    ensures var id, begins := ev.run.value.id, ev.kind.RunStarted? || ev.run.value.started;
            var told := After(After(Begun(runs, skip, fails), readies + [Event(ev)], true, matches), later, true, matches).s.told;
            && Often(told, Streamed(id)) == (if begins then 1 else 0)
            && Often(told, Ended(id)) == (if begins then 0 else 1)
  {
    var id, begun := ev.run.value.id, Begun(runs, skip, fails);
    var before := After(begun, readies, true, matches);
    StartedTells(runs, skip, fails, id);
    EventsTell(begun, readies, true, matches, skip, id);
    TimesAreBoth(before.s.told, id);
    assert (readies + [Event(ev)])[..|readies|] == readies;
    var after := LoopStep(before, Event(ev), true, matches);
    OftenPlus(before.s.told, Streamed(id), Streamed(id));
    OftenPlus(before.s.told, Streamed(id), Ended(id));
    OftenPlus(before.s.told, Ended(id), Streamed(id));
    OftenPlus(before.s.told, Ended(id), Ended(id));
    ShowsNoMore(after, later, true, matches, id);
  }

  function StreamsBegun(told: seq<Told>): nat {
    if told == [] then 0 else StreamsBegun(told[..|told| - 1]) + if told[|told| - 1].Streamed? then 1 else 0
  }

  lemma BegunPlus(told: seq<Told>, other: Told)
    ensures StreamsBegun(told + [other]) == StreamsBegun(told) + if other.Streamed? then 1 else 0
  {
    assert (told + [other])[..|told|] == told;
  }

  lemma {:induction false} StartBegins(s: State, runs: seq<Run>, fails: string -> bool)
    requires s.streams == StreamsBegun(s.told) && StartedAll(s, runs, fails).ok
    ensures var after := StartedAll(s, runs, fails).s; after.streams == StreamsBegun(after.told)
    decreases |runs|
  {
    if runs != [] {
      BegunPlus(s.told, Streamed(runs[0].id));
      BegunPlus(s.told, Ended(runs[0].id));
      StartBegins(StartedOne(s, runs[0], fails).s, runs[1..], fails);
    }
  }

  /** How many streams handed over their result in the loop. */
  function ResultsTaken(begun: Follow, readies: seq<Ready>, events: bool, matches: string -> bool): nat
    requires Balanced(begun.s)
  {
    if readies == [] then 0
    else
      var before := After(begun, readies[..|readies| - 1], events, matches);
      ResultsTaken(begun, readies[..|readies| - 1], events, matches)
        + if readies[|readies| - 1].Result? && Going(before, events) && before.s.streams > 0 then 1 else 0
  }

  /** Until it returns, the follow has as many streams out as it began and took no result of. */
  lemma {:induction false} StreamsAreOut(runs: seq<Run>, skip: seq<Run>, fails: string -> bool, readies: seq<Ready>,
                                         events: bool, matches: string -> bool)
    requires StartedAll(Skipping(skip), runs, fails).ok
    ensures var begun := Begun(runs, skip, fails);
            var f := After(begun, readies, events, matches);
            !f.done ==> f.s.streams + ResultsTaken(begun, readies, events, matches) == StreamsBegun(f.s.told)
  {
    if readies == [] {
      StartBegins(Skipping(skip), runs, fails);
    } else {
      var before := After(Begun(runs, skip, fails), readies[..|readies| - 1], events, matches);
      StreamsAreOut(runs, skip, fails, readies[..|readies| - 1], events, matches);
      StepBegins(before, readies[|readies| - 1], events, matches);
    }
  }

  lemma StepBegins(f: Follow, ready: Ready, events: bool, matches: string -> bool)
    requires Balanced(f.s)
    ensures var next := LoopStep(f, ready, events, matches);
            !next.done ==>
              && !f.done
              && next.s.streams + (if ready.Result? && Going(f, events) && f.s.streams > 0 then 1 else 0) - f.s.streams
                 == StreamsBegun(next.s.told) - StreamsBegun(f.s.told)
  {
    if ready.Event? && NewRun(f.s, ready.ev, matches).Some? {
      BegunPlus(f.s.told, Streamed(ready.ev.run.value.id));
      BegunPlus(f.s.told, Ended(ready.ev.run.value.id));
    }
  }

  // ----- When it returns -----

  /** The start ends the follow exactly when the log of a selected run cannot be read. */
  lemma {:induction false} StartEndsExactly(s: State, runs: seq<Run>, fails: string -> bool)
    ensures StartedAll(s, runs, fails).ok <==> forall i :: 0 <= i < |runs| ==> !fails(runs[i].id)
    decreases |runs|
  {
    if runs != [] {
      StartEndsExactly(StartedOne(s, runs[0], fails).s, runs[1..], fails);
      assert forall i :: 1 <= i < |runs| ==> runs[i] == runs[1..][i - 1];
    }
  }

  lemma BegunExactly(runs: seq<Run>, skip: seq<Run>, fails: string -> bool)
    ensures Begun(runs, skip, fails).done <==> exists i :: 0 <= i < |runs| && fails(runs[i].id)
  {
    StartEndsExactly(Skipping(skip), runs, fails);
  }

  /** One of the events announces run id of a matching task. */
  ghost predicate Announced(readies: seq<Ready>, id: string, matches: string -> bool) {
    exists i :: 0 <= i < |readies| && Announces(readies[i], id, matches)
  }

  predicate Announces(ready: Ready, id: string, matches: string -> bool) {
    && ready.Event? && !ready.ev.kind.OtherKind? && ready.ev.run.Some?
    && ready.ev.run.value.id == id && matches(ready.ev.run.value.task)
  }

  lemma StepTellsAnnounced(f: Follow, ready: Ready, events: bool, matches: string -> bool, id: string)
    requires Balanced(f.s) && !Announces(ready, id, matches)
    ensures Times(LoopStep(f, ready, events, matches).s.told, id) == Times(f.s.told, id)
  {
    if ready.Event? && NewRun(f.s, ready.ev, matches).Some? {
      TimesPlus(f.s.told, Streamed(ready.ev.run.value.id), id);
      TimesPlus(f.s.told, Ended(ready.ev.run.value.id), id);
    }
  }

  lemma {:induction false} TellsAnnounced(begun: Follow, readies: seq<Ready>, events: bool, matches: string -> bool, id: string)
    requires Balanced(begun.s) && !Announced(readies, id, matches)
    ensures Times(After(begun, readies, events, matches).s.told, id) == Times(begun.s.told, id)
  {
    if readies != [] {
      var before, ready := readies[..|readies| - 1], readies[|readies| - 1];
      assert forall i :: 0 <= i < |before| ==> before[i] == readies[i];
      TellsAnnounced(begun, before, events, matches, id);
      StepTellsAnnounced(After(begun, before, events, matches), ready, events, matches, id);
    }
  }

  /** No run is told of but the selected ones and those of matching tasks that an event announced. */
  lemma NothingElseIsTold(runs: seq<Run>, skip: seq<Run>, fails: string -> bool, readies: seq<Ready>,
                          events: bool, matches: string -> bool, id: string)
    requires StartedAll(Skipping(skip), runs, fails).ok && Occurs(runs, id) == 0 && !Announced(readies, id, matches)
    ensures Times(After(Begun(runs, skip, fails), readies, events, matches).s.told, id) == 0
  {
    StartedTells(runs, skip, fails, id);
    TellsAnnounced(Begun(runs, skip, fails), readies, events, matches, id);
  }

  /**
    A follow that goes on returns with its next step exactly when it is
    interrupted, when a stream it began failed, or when the events end; and
    otherwise once it waits for no stream and no events.
   */
  lemma ReturnsExactly(runs: seq<Run>, skip: seq<Run>, fails: string -> bool, readies: seq<Ready>, ready: Ready,
                       events: bool, matches: string -> bool)
    ensures var f := After(Begun(runs, skip, fails), readies, events, matches);
            var next := After(Begun(runs, skip, fails), readies + [ready], events, matches);
            Going(f, events) ==>
              (!Going(next, events) <==>
                 || ready.Interrupted?
                 || (ready.Result? && f.s.streams > 0 && (ready.failed || (!events && f.s.streams == 1)))
                 || (ready.EventsClosed? && events))
  {
    assert (readies + [ready])[..|readies|] == readies;
  }
}
