/**
  max_concurrent over whole runs of the callback runner: exactly when it holds,
  and a run in which it fails although the running map loses no callback.
 */
module RunnerBounds {
  import opened RunnerSteps
  import opened RunnerRuns

  /** No task on queue or skip has more callbacks in progress than its max_concurrent. */
  ghost predicate CallbacksBounded(st: State, policies: Policies) {
    forall task :: policies(task).onOverlap != Kill ==> |InProgress(st, task)| <= policies(task).maxConcurrent
  }

  ghost predicate AlwaysBounded(states: seq<State>, policies: Policies) {
    forall i :: 0 <= i < |states| ==> CallbacksBounded(states[i], policies)
  }

  /** A waiter that goes on to run its callback has room for it in the array it was handed. */
  predicate Roomy(st: State, policies: Policies, step: Step) {
    step.Resume? && step.request < |st.requests| && st.requests[step.request].phase.HandedOff?
      && !st.requests[step.request].aborted && !st.closing ==>
      var request := st.requests[step.request];
      policies(request.task).onOverlap != Kill && request.phase.list < |st.lists| ==>
        HasRoom(st, request.phase.list, policies(request.task).maxConcurrent)
  }

  predicate AlwaysRoomy(states: seq<State>, policies: Policies, steps: seq<Step>)
    requires |states| == |steps| + 1
  {
    forall i :: 0 <= i < |steps| ==> Roomy(states[i], policies, steps[i])
  }

  /** Under bookkeeping, counting the callbacks and counting the map's arrays is the same. */
  lemma ArraysCount(st: State, policies: Policies)
    requires Sound(st) && Bookkept(st)
    ensures CallbacksBounded(st, policies) <==> Bounded(st, policies)
  {
    forall task ensures task in st.running ==> |InProgress(st, task)| == |st.lists[st.running[task]].items|
                ensures task !in st.running ==> InProgress(st, task) == {}
    {
      BooksAreComplete(st, task);
    }
    if CallbacksBounded(st, policies) {
      forall task | task in st.running && policies(task).onOverlap != Kill
        ensures |st.lists[st.running[task]].items| <= policies(task).maxConcurrent
      {
        assert |InProgress(st, task)| <= policies(task).maxConcurrent;
      }
    }
  }

  lemma ResumeIsBounded(st: State, policies: Policies, r: nat)
    requires Sound(st) && Bounded(st, policies) && Enabled(st, Resume(r)) && Guarded(st, Resume(r))
    ensures Bounded(Resumed(st, r), policies) <==> Roomy(st, policies, Resume(r))
  {
    if !st.requests[r].aborted && !st.closing && policies(st.requests[r].task).onOverlap != Kill {
      ResumeBoundedExactly(st, policies, r);
    }
  }

  lemma StepIsBounded(st: State, policies: Policies, step: Step)
    requires Sound(st) && Bounded(st, policies) && Enabled(st, step) && Guarded(st, step)
    ensures InBounds(Next(st, policies, step))
    ensures Bounded(Next(st, policies, step), policies) <==> Roomy(st, policies, step)
  {
    StepIsSound(st, policies, step);
    match step {
      case Start(session, run, task) => StartStaysBounded(st, policies, session, run, task);
      case Resume(r) => ResumeIsBounded(st, policies, r);
      case Finish(r, code) => FinishStaysBounded(st, policies, r, code);
      case _ =>
    }
  }

  lemma StepBoundsCallbacks(st: State, policies: Policies, step: Step)
    requires Sound(st) && Bookkept(st) && CallbacksBounded(st, policies) && Enabled(st, step) && Guarded(st, step)
    ensures CallbacksBounded(Next(st, policies, step), policies) <==> Roomy(st, policies, step)
  {
    StepIsSound(st, policies, step);
    StepBooks(st, policies, step);
    ArraysCount(st, policies);
    ArraysCount(Next(st, policies, step), policies);
    StepIsBounded(st, policies, step);
  }

  lemma OneMoreState(states: seq<State>, policies: Policies, steps: seq<Step>, n: nat)
    requires |states| == |steps| + 1 == n + 2
    ensures AlwaysBounded(states, policies)
       <==> AlwaysBounded(states[..n + 1], policies) && CallbacksBounded(states[n + 1], policies)
    ensures AlwaysBounded(states[..n + 1], policies) ==> CallbacksBounded(states[n], policies)
    ensures AlwaysRoomy(states, policies, steps)
       <==> AlwaysRoomy(states[..n + 1], policies, steps[..n]) && Roomy(states[n], policies, steps[n])
  {
    assert forall i :: 0 <= i <= n ==> states[..n + 1][i] == states[i];
    assert forall i :: 0 <= i < n ==> steps[..n][i] == steps[i];
    assert AlwaysBounded(states[..n + 1], policies) ==> CallbacksBounded(states[..n + 1][n], policies);
  }

  lemma IdleIsBounded(policies: Policies)
    ensures CallbacksBounded(IDLE, policies)
  {
    forall task ensures InProgress(IDLE, task) == {} {
    }
  }

  /**
    While the books are kept: callbacks stay within max_concurrent at every
    step, if and only if every waiter that goes on has room when it does.
   */
  lemma {:induction false} BoundExactlyWhenRoomy(states: seq<State>, policies: Policies, steps: seq<Step>)
    requires IsRun(states, policies, steps) && AlwaysGuarded(states, steps)
    ensures AlwaysBounded(states, policies) <==> AlwaysRoomy(states, policies, steps)
    decreases |steps|
  {
    IdleIsBounded(policies);
    if steps != [] {
      var n := |steps| - 1;
      var before, first := states[..n + 1], steps[..n];
      OneMoreStep(states, steps, n);
      OneMoreState(states, policies, steps, n);
      BoundExactlyWhenRoomy(before, policies, first);
      BooksExactlyWhenGuarded(before, policies, first);
      RunIsSound(before, policies, first);
      if CallbacksBounded(states[n], policies) {
        StepBoundsCallbacks(states[n], policies, steps[n]);
      }
    }
  }

  /**
    Over every run: no callback is lost from the map and none exceeds
    max_concurrent, if and only if every waiter that goes on finds the map as it
    left it and room in its array.
   */
  lemma BooksAndBoundExactly(states: seq<State>, policies: Policies, steps: seq<Step>)
    requires IsRun(states, policies, steps)
    ensures AlwaysBookkept(states) && AlwaysBounded(states, policies)
       <==> AlwaysGuarded(states, steps) && AlwaysRoomy(states, policies, steps)
  {
    BooksExactlyWhenGuarded(states, policies, steps);
    if AlwaysGuarded(states, steps) {
      BoundExactlyWhenRoomy(states, policies, steps);
    }
  }

  // ----- Two waiters and one place -----

  /** Four runs of a task with two places: one of the first two ends, and both waiters are handed its array. */
  const ONE_PLACE: seq<Step> := [
    Start(0, "1", "task"), Start(0, "2", "task"), Start(0, "3", "task"), Start(0, "4", "task"), Finish(0, 0),
    Wake(2), Wake(3), Resume(2), Resume(3)]

  function Numbered(k: nat, phase: Phase): Request
    requires k < 4
  {
    Waiter(["1", "2", "3", "4"][k], phase)
  }

  /** The state with these callbacks in the task's one array, after the first run ended. */
  function Freed(items: seq<nat>, third: Phase, fourth: Phase): State {
    State(map["task" := 0], [Array("task", items)],
          [Numbered(0, Done(0, false)), Numbered(1, Serving(0)), Numbered(2, third), Numbered(3, fourth)],
          false, [Exit(0, 0, false)])
  }

  /** The state with the first k of the four runs started. */
  function Begun(k: nat): State
    requires k <= 4
  {
    var two := State(map["task" := 0], [Array("task", [0, 1])], [Numbered(0, Serving(0)), Numbered(1, Serving(0))], false, []);
    if k == 0 then IDLE
    else if k == 1 then State(map["task" := 0], [Array("task", [0])], [Numbered(0, Serving(0))], false, [])
    else if k == 2 then two
    else if k == 3 then two.(requests := two.requests + [Numbered(2, Waiting)])
    else two.(requests := two.requests + [Numbered(2, Waiting), Numbered(3, Waiting)])
  }

  /** The state after k of those steps. */
  function OnePlaceAfter(k: nat): State
    requires k <= 9
  {
    if k <= 4 then Begun(k)
    else if k == 5 then Freed([1], Waiting, Waiting)
    else if k == 6 then Freed([1], HandedOff(0), Waiting)
    else if k == 7 then Freed([1], HandedOff(0), HandedOff(0))
    else if k == 8 then Freed([1, 2], Serving(0), HandedOff(0))
    else Freed([1, 2, 3], Serving(0), Serving(0))
  }

  ghost predicate OnePlaceGoes(policies: Policies, k: nat)
    requires k < 9
  {
    && Enabled(OnePlaceAfter(k), ONE_PLACE[k])
    && OnePlaceAfter(k + 1) == Next(OnePlaceAfter(k), policies, ONE_PLACE[k])
    && Guarded(OnePlaceAfter(k), ONE_PLACE[k])
  }

  lemma OnePlaceStarts(policies: Policies)
    requires policies("task") == Policy(Queue, 2)
    ensures OnePlaceGoes(policies, 0) && OnePlaceGoes(policies, 1)
  {
    assert [] + [0] == [0] && [] + [Array("task", [])] == [Array("task", [])];
    assert [0] + [1] == [0, 1];
  }

  lemma OnePlaceQueues(policies: Policies)
    requires policies("task") == Policy(Queue, 2)
    ensures OnePlaceGoes(policies, 2) && OnePlaceGoes(policies, 3)
  {
    assert Begun(2).requests + [Numbered(2, Waiting)] + [Numbered(3, Waiting)]
        == Begun(2).requests + [Numbered(2, Waiting), Numbered(3, Waiting)];
  }

  lemma OnePlaceFrees(policies: Policies)
    ensures OnePlaceGoes(policies, 4)
  {
    assert [0, 1][1..] == [1] && [0, 1][..0] == [] && Spliced([0, 1], 0) == [1];
  }

  lemma OnePlaceWakes(policies: Policies)
    requires policies("task") == Policy(Queue, 2)
    ensures OnePlaceGoes(policies, 5) && OnePlaceGoes(policies, 6)
  {
  }

  lemma OnePlaceFills(policies: Policies)
    ensures OnePlaceGoes(policies, 7) && OnePlaceGoes(policies, 8)
  {
    assert [1] + [2] == [1, 2] && [1, 2] + [3] == [1, 2, 3];
  }

  lemma OnePlaceStep(policies: Policies, k: nat)
    requires policies("task") == Policy(Queue, 2) && k < 9
    ensures OnePlaceGoes(policies, k)
  {
    if k < 2 {
      OnePlaceStarts(policies);
    } else if k < 4 {
      OnePlaceQueues(policies);
    } else if k < 5 {
      OnePlaceFrees(policies);
    } else if k < 7 {
      OnePlaceWakes(policies);
    } else {
      OnePlaceFills(policies);
    }
  }

  /**
    Every waiter finds the map as it left it, so no callback is lost from it,
    and still three callbacks of a task with two places run at once.
   */
  lemma TwoWaitersOnePlace(policies: Policies) returns (states: seq<State>)
    requires policies("task") == Policy(Queue, 2)
    ensures IsRun(states, policies, ONE_PLACE) && AlwaysGuarded(states, ONE_PLACE) && AlwaysBookkept(states)
    ensures InProgress(states[9], "task") == {1, 2, 3} && !CallbacksBounded(states[9], policies)
  {
    states := seq(10, k requires 0 <= k < 10 => OnePlaceAfter(k));
    forall k | 0 <= k < 9
      ensures Enabled(states[k], ONE_PLACE[k]) && states[k + 1] == Next(states[k], policies, ONE_PLACE[k])
      ensures Guarded(states[k], ONE_PLACE[k])
    {
      OnePlaceStep(policies, k);
    }
    BooksExactlyWhenGuarded(states, policies, ONE_PLACE);
    assert InProgress(states[9], "task") == {1, 2, 3};
  }
}
