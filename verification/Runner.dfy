/**
  The Runner object of packages/js/src/runner.ts, one method per stretch of code
  between two awaits, each proved to take the step RunnerSteps names.
 */
module Runner {
  import opened RunnerSteps
  import opened RunnerRuns

  class Runner {
    var running: map<string, nat>
    var lists: seq<Array>
    var requests: seq<Request>
    var waiting: set<nat>
    var closing: bool
    var exits: seq<Exit>
    const policies: Policies

    ghost function View(): State
      reads this
    {
      State(running, lists, requests, closing, exits)
    }

    ghost predicate Valid()
      reads this
    {
      Sound(View()) && waiting == WaitingRequests(requests)
    }

    constructor (policies: Policies)
      ensures Valid() && View() == IDLE && this.policies == policies
    {
      running, lists, requests, waiting, closing, exits := map[], [], [], {}, false, [];
      this.policies := policies;
    }

    /** The map's array of the task, or a new one that the map does not hold. */
    method GetList(task: string) returns (list: nat)
      requires InBounds(View())
      modifies this`lists
      ensures (View(), list) == ListFor(old(View()), task)
    {
      if task in running {
        list := running[task];
      } else {
        list := |lists|;
        lists := lists + [Array(task, [])];
      }
    }

    method Register(r: nat, list: nat)
      requires r < |requests| && list < |lists|
      modifies this`running, this`lists, this`requests
      ensures View() == Registered(old(View()), r, list)
    {
      running := running[requests[r].task := list];
      lists := lists[list := lists[list].(items := lists[list].items + [r])];
      requests := requests[r := requests[r].(phase := Serving(list))];
    }

    /** Records the exit of run r: an abort decides its code, else the outcome given does. */
    method Report(r: nat, code: int, skipped: bool)
      requires r < |requests|
      modifies this`requests, this`exits
      ensures View() == Reported(old(View()), r, code, skipped)
    {
      var reported := if requests[r].aborted then 143 else code;
      requests := requests[r := requests[r].(phase := Done(reported, skipped))];
      exits := exits + [Exit(r, reported, skipped)];
    }

    /** start, and execute up to its first await. */
    method Start(session: nat, run: string, task: string) returns (r: nat)
      requires Valid()
      modifies this
      ensures r == |old(requests)|
      ensures Valid() && View() == Started(old(View()), policies, session, run, task)
    {
      StepIsSound(View(), policies, Step.Start(session, run, task));
      r := |requests|;
      requests := requests + [Request(session, run, task, false, false, Waiting)];
      if closing {
        Report(r, 1, false);
        return;
      }
      var maxConcurrent, onOverlap := policies(task).maxConcurrent, policies(task).onOverlap;
      var count := if task in running then |lists[running[task]].items| else 0;
      if maxConcurrent <= count && onOverlap != Kill {
        if onOverlap == Skip {
          Report(r, 1, true);
        } else {
          waiting := waiting + {r};
        }
        return;
      }
      var list := GetList(task);
      Register(r, list);
    }

    /** waitForTurn's loop goes around once, and returns or awaits again. */
    method Wake(r: nat)
      requires Valid() && r < |requests| && requests[r].phase.Waiting?
      modifies this
      ensures Valid() && View() == Woken(old(View()), policies, r)
    {
      StepIsSound(View(), policies, Step.Wake(r));
      var task := requests[r].task;
      var count := if task in running then |lists[running[task]].items| else 0;
      if policies(task).maxConcurrent <= count && !requests[r].aborted && !closing {
        return;
      }
      var list := GetList(task);
      waiting := waiting - {r};
      requests := requests[r := requests[r].(phase := HandedOff(list))];
    }

    /** execute after waitForTurn, up to the await of the callback. */
    method Resume(r: nat)
      requires Valid() && r < |requests| && requests[r].phase.HandedOff?
      modifies this
      ensures Valid() && View() == Resumed(old(View()), r)
    {
      StepIsSound(View(), policies, Step.Resume(r));
      if requests[r].aborted {
        Report(r, 143, false);
        return;
      }
      if closing {
        Report(r, 1, false);
        return;
      }
      Register(r, requests[r].phase.list);
    }

    /** execute after its callback. */
    method Finish(r: nat, code: int)
      requires Valid() && r < |requests| && requests[r].phase.Serving?
      modifies this
      ensures Valid() && View() == Finished(old(View()), r, code)
    {
      StepIsSound(View(), policies, Step.Finish(r, code));
      var list := requests[r].phase.list;
      var i := IndexOf(lists[list].items, r);
      lists := lists[list := lists[list].(items := lists[list].items[..i] + lists[list].items[i + 1..])];
      if lists[list].items == [] {
        running := running - {requests[r].task};
      }
      Report(r, code, false);
    }

    method AbortWhere(m: Match)
      requires Valid()
      modifies this`requests
      ensures Valid() && View() == Aborted(old(View()), m)
    {
      StepIsSound(View(), policies, Step.Abort(m));
      AbortRunning(m);
      AbortWaiting(m, old(requests), ListedRequests(old(View())));
    }

    /** The loops over the running map. */
    method AbortRunning(m: Match)
      requires Valid()
      modifies this`requests
      ensures requests == Marked(old(requests), m, ListedRequests(old(View())))
    {
      ghost var before := View();
      var tasks := running.Keys;
      MarkedNone(requests, m);
      while tasks != {}
        invariant tasks <= running.Keys
        invariant requests == Marked(before.requests, m, ListedUnder(before, running.Keys - tasks))
        decreases tasks
      {
        var task :| task in tasks;
        ghost var done := running.Keys - tasks;
        AbortList(m, lists[running[task]].items, before.requests, ListedUnder(before, done));
        tasks := tasks - {task};
        assert running.Keys - tasks == done + {task};
        OneMoreTask(before, done, task);
      }
      AllTasks(before);
      assert running.Keys - {} == running.Keys;
    }

    method AbortList(m: Match, items: seq<nat>, ghost before: seq<Request>, ghost hit: set<nat>)
      requires forall i :: 0 <= i < |items| ==> items[i] < |requests|
      requires requests == Marked(before, m, hit)
      modifies this`requests
      ensures requests == Marked(before, m, hit + FirstOf(items, |items|))
    {
      var i := 0;
      assert hit + FirstOf(items, 0) == hit;
      while i < |items|
        invariant 0 <= i <= |items| && |requests| == |old(requests)|
        invariant requests == Marked(before, m, hit + FirstOf(items, i))
      {
        ghost var sofar := FirstOf(items, i);
        AbortIf(m, items[i], before, hit + sofar);
        assert FirstOf(items, i + 1) == sofar + {items[i]};
        assert hit + sofar + {items[i]} == hit + (sofar + {items[i]});
        i := i + 1;
      }
    }

    /** The loop over the waiting. */
    method AbortWaiting(m: Match, ghost before: seq<Request>, ghost hit: set<nat>)
      requires waiting == WaitingRequests(before) && requests == Marked(before, m, hit)
      modifies this`requests
      ensures requests == Marked(before, m, hit + waiting)
    {
      var left := waiting;
      assert hit + (waiting - left) == hit;
      while left != {}
        invariant left <= waiting
        invariant requests == Marked(before, m, hit + (waiting - left))
        decreases left
      {
        var r :| r in left;
        ghost var sofar := waiting - left;
        AbortIf(m, r, before, hit + sofar);
        left := left - {r};
        assert hit + sofar + {r} == hit + (waiting - left);
      }
      assert waiting - {} == waiting;
    }

    /** kill: stop, then fire the kill of the run's callbacks. */
    method KillRun(run: string)
      requires Valid()
      modifies this`requests
      ensures Valid() && View() == Killed(old(View()), run)
    {
      StepIsSound(View(), policies, Step.KillRun(run));
      ghost var before := View();
      AbortWhere(OfRun(run));
      ghost var stopped := requests;
      var tasks := running.Keys;
      KilledNone(requests, run);
      while tasks != {}
        invariant tasks <= running.Keys
        invariant requests == MarkedKilled(stopped, run, ListedUnder(before, running.Keys - tasks))
        decreases tasks
      {
        var task :| task in tasks;
        ghost var done := running.Keys - tasks;
        KillList(run, lists[running[task]].items, stopped, ListedUnder(before, done));
        tasks := tasks - {task};
        assert running.Keys - tasks == done + {task};
        OneMoreTask(before, done, task);
      }
      AllTasks(before);
      assert running.Keys - {} == running.Keys;
    }

    method KillList(run: string, items: seq<nat>, ghost before: seq<Request>, ghost hit: set<nat>)
      requires forall i :: 0 <= i < |items| ==> items[i] < |requests|
      requires requests == MarkedKilled(before, run, hit)
      modifies this`requests
      ensures requests == MarkedKilled(before, run, hit + FirstOf(items, |items|))
    {
      var i := 0;
      assert hit + FirstOf(items, 0) == hit;
      while i < |items|
        invariant 0 <= i <= |items| && |requests| == |old(requests)|
        invariant requests == MarkedKilled(before, run, hit + FirstOf(items, i))
      {
        ghost var sofar := FirstOf(items, i);
        if requests[items[i]].run == run {
          requests := requests[items[i] := requests[items[i]].(killed := true)];
        }
        assert requests == MarkedKilled(before, run, hit + sofar + {items[i]});
        assert FirstOf(items, i + 1) == sofar + {items[i]};
        assert hit + sofar + {items[i]} == hit + (sofar + {items[i]});
        i := i + 1;
      }
    }

    /** The sum over the map's arrays. */
    method Size() returns (size: nat)
      requires Valid()
      ensures size == |ListedRequests(View())|
    {
      size := 0;
      var tasks := running.Keys;
      while tasks != {}
        invariant tasks <= running.Keys
        invariant size == |ListedUnder(View(), running.Keys - tasks)|
        decreases tasks
      {
        var task :| task in tasks;
        ghost var done := running.Keys - tasks;
        size := size + |lists[running[task]].items|;
        tasks := tasks - {task};
        assert running.Keys - tasks == done + {task};
        CountOneMoreTask(View(), done, task);
      }
      AllTasks(View());
      assert running.Keys - {} == running.Keys;
    }

    /** close: takes no more runs; done says whether it resolves now or waits for the callbacks in the map. */
    method Close() returns (done: bool)
      requires Valid()
      modifies this`closing
      ensures Valid() && View() == old(View()).(closing := true)
      ensures done <==> running == map[]
    {
      closing := true;
      done := running == map[];
    }

    /** One turn of abortWhere's loops. */
    method AbortIf(m: Match, r: nat, ghost before: seq<Request>, ghost hit: set<nat>)
      requires r < |requests| && requests == Marked(before, m, hit)
      modifies this`requests
      ensures requests == Marked(before, m, hit + {r})
    {
      if m.Matches(requests[r]) {
        requests := requests[r := requests[r].(aborted := true)];
      }
    }
  }

  lemma MarkedNone(requests: seq<Request>, m: Match)
    ensures Marked(requests, m, {}) == requests
  {
  }

  lemma KilledNone(requests: seq<Request>, run: string)
    ensures MarkedKilled(requests, run, {}) == requests
  {
  }

  /** The requests in the map's arrays of some tasks. */
  ghost function ListedUnder(st: State, tasks: set<string>): set<nat>
    requires InBounds(st) && tasks <= st.running.Keys
  {
    set task, i | task in tasks && 0 <= i < |st.lists[st.running[task]].items| :: st.lists[st.running[task]].items[i]
  }

  function FirstOf(items: seq<nat>, n: nat): set<nat>
    requires n <= |items|
  {
    set i | 0 <= i < n :: items[i]
  }

  ghost function Items(st: State, task: string): set<nat>
    requires InBounds(st) && task in st.running
  {
    FirstOf(st.lists[st.running[task]].items, |st.lists[st.running[task]].items|)
  }

  lemma ItemsServe(st: State, task: string, r: nat)
    requires Sound(st) && task in st.running && r in Items(st, task)
    ensures InPlace(st, st.running[task], r) && st.requests[r].task == task
  {
    var i :| 0 <= i < |st.lists[st.running[task]].items| && st.lists[st.running[task]].items[i] == r;
    assert InPlace(st, st.running[task], st.lists[st.running[task]].items[i]);
  }

  lemma OneMoreTask(st: State, done: set<string>, task: string)
    requires InBounds(st) && done <= st.running.Keys && task in st.running
    ensures ListedUnder(st, done + {task}) == ListedUnder(st, done) + Items(st, task)
  {
  }

  lemma AllTasks(st: State)
    requires InBounds(st)
    ensures ListedUnder(st, st.running.Keys) == ListedRequests(st)
  {
  }

  /** Arrays of different tasks share no callback, and each holds a callback once. */
  lemma CountOneMoreTask(st: State, done: set<string>, task: string)
    requires Sound(st) && done <= st.running.Keys && task in st.running && task !in done
    ensures |ListedUnder(st, done + {task})| == |ListedUnder(st, done)| + |st.lists[st.running[task]].items|
  {
    OneMoreTask(st, done, task);
    CardinalityOfItems(st.lists[st.running[task]].items);
    forall r | r in ListedUnder(st, done) && r in Items(st, task) ensures false {
      var other, i :| other in done && 0 <= i < |st.lists[st.running[other]].items| && st.lists[st.running[other]].items[i] == r;
      ItemsServe(st, task, r);
      ItemsServe(st, other, r);
    }
    assert ListedUnder(st, done) !! Items(st, task);
  }
}
