/**
  packages/js/src/runner.ts: which exit each run reports, which runs begin, wait
  or go on, and which a kill reaches, over any mix of steps.
 */
module RunnerExits {
  import opened Wrappers
  import opened RunnerSteps
  import opened RunnerRuns

  /** The task has no place left: its array in the map, if any, is as long as max_concurrent. */
  predicate Full(st: State, policies: Policies, task: string)
    requires InBounds(st)
  {
    var length := if task in st.running then |st.lists[st.running[task]].items| else 0;
    length >= policies(task).maxConcurrent
  }

  /**
    The exit a step owes. A callback's outcome is its run's, unless the run was
    aborted; a run that never begins fails, or is skipped when its task skips
    overlaps and is full.
   */
  ghost function Owed(st: State, policies: Policies, step: Step): Option<Exit>
    requires Enabled(st, step)
  {
    match step
    case Finish(r, code) => Some(Exit(r, if st.requests[r].aborted then 143 else code, false))
    case Start(session, run, task) =>
      var r := |st.requests|;
      if st.closing then Some(Exit(r, 1, false))
      else if Full(st, policies, task) && policies(task).onOverlap == Skip then Some(Exit(r, 1, true))
      else None
    case Resume(r) =>
      if st.requests[r].aborted then Some(Exit(r, 143, false)) else if st.closing then Some(Exit(r, 1, false)) else None
    case _ => None
  }

  lemma StartOwes(st: State, policies: Policies, session: nat, run: string, task: string)
    requires InBounds(st)
    ensures var owed := Owed(st, policies, Start(session, run, task));
            Started(st, policies, session, run, task).exits == st.exits + if owed.Some? then [owed.value] else []
  {
    assert st.exits + [] == st.exits;
  }

  lemma StepOwes(st: State, policies: Policies, step: Step)
    requires Enabled(st, step)
    ensures Next(st, policies, step).exits
         == st.exits + if Owed(st, policies, step).Some? then [Owed(st, policies, step).value] else []
  {
    assert st.exits + [] == st.exits;
    if step.Start? {
      StartOwes(st, policies, step.session, step.run, step.task);
    }
  }

  lemma {:induction false} ExitsStay(states: seq<State>, policies: Policies, steps: seq<Step>, i: nat)
    requires IsRun(states, policies, steps) && i <= |steps|
    ensures states[i].exits <= states[|steps|].exits
    decreases |steps|
  {
    if i < |steps| {
      var n := |steps| - 1;
      ExitsStay(states[..n + 1], policies, steps[..n], i);
      StepOwes(states[n], policies, steps[n]);
    }
  }

  /** The exits owed by the first n steps, in order. */
  ghost function AllOwed(states: seq<State>, policies: Policies, steps: seq<Step>, n: nat): seq<Exit>
    requires n <= |steps| <= |states| && forall i :: 0 <= i < |steps| ==> Enabled(states[i], steps[i])
  {
    if n == 0 then []
    else
      var owed := Owed(states[n - 1], policies, steps[n - 1]);
      AllOwed(states, policies, steps, n - 1) + if owed.Some? then [owed.value] else []
  }

  /** Over every run, the exits reported are those owed, in the order of the steps that owe them. */
  lemma {:induction false} ExitsAreOwed(states: seq<State>, policies: Policies, steps: seq<Step>, n: nat)
    requires IsRun(states, policies, steps) && n <= |steps|
    ensures states[n].exits == AllOwed(states, policies, steps, n)
  {
    if n > 0 {
      ExitsAreOwed(states, policies, steps, n - 1);
      StepOwes(states[n - 1], policies, steps[n - 1]);
    }
  }

  lemma {:induction false} ExitAmongThem(exits: seq<Exit>, k: nat)
    requires k < |exits|
    ensures exits[k] in ExitsOf(exits, exits[k].request)
  {
    if k < |exits| - 1 {
      ExitAmongThem(exits[..|exits| - 1], k);
    }
  }

  /** The one exit a request ever reports is the one owed. */
  lemma OwedExitIsTheOne(states: seq<State>, policies: Policies, steps: seq<Step>, i: nat)
    requires IsRun(states, policies, steps) && i < |steps| && Owed(states[i], policies, steps[i]).Some?
    ensures var exit := Owed(states[i], policies, steps[i]).value; ExitsOf(states[|steps|].exits, exit.request) == [exit]
  {
    var exit := Owed(states[i], policies, steps[i]).value;
    var exits, k := states[|steps|].exits, |states[i].exits|;
    StepOwes(states[i], policies, steps[i]);
    ExitsStay(states, policies, steps, i + 1);
    assert exits[k] == states[i + 1].exits[k] == exit;
    ExitAmongThem(exits, k);
    ExitsReportedOnce(states, policies, steps);
    assert exit.request < |states[|steps|].requests|;
    assert |ExitsOf(exits, exit.request)| <= 1;
  }

  /**
    A run whose callback returned reports its code, and nothing else ever,
    unless it was aborted by then: then 143.
   */
  lemma FinishReportsCode(states: seq<State>, policies: Policies, steps: seq<Step>, i: nat)
    requires IsRun(states, policies, steps) && i < |steps| && steps[i].Finish?
    ensures var r := steps[i].request;
            ExitsOf(states[|steps|].exits, r)
              == [Exit(r, if states[i].requests[r].aborted then 143 else steps[i].code, false)]
  {
    OwedExitIsTheOne(states, policies, steps, i);
  }

  /** The step starts a run on a full task that skips overlaps, while the app is not closing. */
  predicate Skips(st: State, policies: Policies, step: Step)
    requires InBounds(st)
  {
    step.Start? && !st.closing && Full(st, policies, step.task) && policies(step.task).onOverlap == Skip
  }

  /** A run that never began reports why, once and for good: refused, skipped, or aborted while it waited. */
  lemma NeverBegunReports(states: seq<State>, policies: Policies, steps: seq<Step>, i: nat)
    requires IsRun(states, policies, steps) && i < |steps|
    ensures var st, exits := states[i], states[|steps|].exits;
            && (steps[i].Start? && st.closing ==> ExitsOf(exits, |st.requests|) == [Exit(|st.requests|, 1, false)])
            && (Skips(st, policies, steps[i]) ==> ExitsOf(exits, |st.requests|) == [Exit(|st.requests|, 1, true)])
            && (steps[i].Resume? && st.requests[steps[i].request].aborted ==>
                  ExitsOf(exits, steps[i].request) == [Exit(steps[i].request, 143, false)])
            && (steps[i].Resume? && !st.requests[steps[i].request].aborted && st.closing ==>
                  ExitsOf(exits, steps[i].request) == [Exit(steps[i].request, 1, false)])
  {
    if Owed(states[i], policies, steps[i]).Some? {
      OwedExitIsTheOne(states, policies, steps, i);
    }
  }

  /** No other run is reported skipped. */
  lemma SkipsExactly(st: State, policies: Policies, step: Step)
    requires Enabled(st, step)
    ensures Skips(st, policies, step) <==>
              |Next(st, policies, step).exits| > |st.exits| && Next(st, policies, step).exits[|st.exits|].skipped
  {
    StepOwes(st, policies, step);
  }

  // ----- Who begins, waits and goes on -----

  /** The request whose callback a step begins. */
  ghost function BegunBy(st: State, policies: Policies, step: Step): Option<nat>
    requires Enabled(st, step)
  {
    match step
    case Start(session, run, task) =>
      if !st.closing && (!Full(st, policies, task) || policies(task).onOverlap == Kill) then Some(|st.requests|) else None
    case Resume(r) => if !st.requests[r].aborted && !st.closing then Some(r) else None
    case _ => None
  }

  predicate Serves(st: State, r: nat) {
    r < |st.requests| && st.requests[r].phase.Serving?
  }

  predicate Waits(st: State, r: nat) {
    r < |st.requests| && st.requests[r].phase.Waiting?
  }

  lemma StartBegins(st: State, policies: Policies, session: nat, run: string, task: string, r: nat)
    requires InBounds(st)
    ensures var step, after := Start(session, run, task), Started(st, policies, session, run, task);
            && (Serves(after, r) <==> Serves(st, r) || BegunBy(st, policies, step) == Some(r))
            && (Waits(after, r) <==>
                  Waits(st, r) || (r == |st.requests| && !st.closing && Full(st, policies, task) && policies(task).onOverlap == Queue))
  {
  }

  /** A callback begins with a step exactly when the step begins it, and goes on until its own Finish. */
  lemma BeginsExactly(st: State, policies: Policies, step: Step, r: nat)
    requires Enabled(st, step)
    ensures Serves(Next(st, policies, step), r) <==>
              (Serves(st, r) && !(step.Finish? && step.request == r)) || BegunBy(st, policies, step) == Some(r)
  {
    if step.Start? {
      StartBegins(st, policies, step.session, step.run, step.task, r);
    }
  }

  /** A run waits from its start on a full queueing task until a wake finds room, its abort or the closing. */
  lemma WaitsExactly(st: State, policies: Policies, step: Step, r: nat)
    requires Enabled(st, step)
    ensures Waits(Next(st, policies, step), r) <==>
              || (Waits(st, r) && !(step == Wake(r) && (!Full(st, policies, st.requests[r].task) || st.requests[r].aborted || st.closing)))
              || (step.Start? && r == |st.requests| && !st.closing && Full(st, policies, step.task)
                  && policies(step.task).onOverlap == Queue)
  {
    if step.Start? {
      StartBegins(st, policies, step.session, step.run, step.task, r);
    }
  }

  /** A kill aborts what a stop would, and fires the kill of the run's callbacks in the map, and of no others. */
  lemma KillReachesExactly(st: State, run: string, r: nat)
    requires Sound(st) && r < |st.requests|
    ensures Killed(st, run).requests[r].killed <==> st.requests[r].killed || (Registers(st, r) && st.requests[r].run == run)
    ensures Killed(st, run).requests[r].aborted == Aborted(st, OfRun(run)).requests[r].aborted
  {
    ListedExactly(st, r);
    assert Aborted(st, OfRun(run)).requests[r].run == st.requests[r].run;
  }

  /** A step aborts and kills exactly these, and nothing is ever taken back. */
  lemma FlagsExactly(st: State, policies: Policies, step: Step, r: nat)
    requires Sound(st) && Enabled(st, step) && r < |st.requests|
    ensures var request, after := st.requests[r], Next(st, policies, step);
            var looksFor := (step.KillRun? && request.run == step.run) || (step.Abort? && step.match_.Matches(request));
            && r < |after.requests|
            && (after.requests[r].aborted <==> request.aborted || (looksFor && (request.phase.Waiting? || Registers(st, r))))
            && (after.requests[r].killed <==>
                  request.killed || (step.KillRun? && request.run == step.run && Registers(st, r)))
            && (after.closing <==> st.closing || step.Close?)
  {
    if step.KillRun? {
      KillReachesExactly(st, step.run, r);
      ListedExactly(st, r);
    } else if step.Abort? {
      ListedExactly(st, r);
    }
  }
}
