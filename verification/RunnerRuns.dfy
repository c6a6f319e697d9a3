/**
  What every run of the callback runner keeps: its bookkeeping, exactly when it
  does, the bound of max_concurrent, and the exits it reports.
 */
module RunnerRuns {
  import opened RunnerSteps

  // ----- What always holds -----

  predicate NoRepeats(items: seq<nat>) {
    forall i, j :: 0 <= i < j < |items| ==> items[i] != items[j]
  }

  predicate HoldsList(p: Phase) {
    p.HandedOff? || p.Serving?
  }

  /** The map names arrays of the right task, none of them empty. */
  ghost predicate MapSound(st: State) {
    && InBounds(st)
    && forall task :: task in st.running ==>
         st.lists[st.running[task]].task == task && st.lists[st.running[task]].items != []
  }

  /** A suspended or running function holds an array of its task. */
  predicate PhasesSound(st: State) {
    forall r :: 0 <= r < |st.requests| && HoldsList(st.requests[r].phase) ==>
      st.requests[r].phase.list < |st.lists| && st.lists[st.requests[r].phase.list].task == st.requests[r].task
  }

  /** An array holds each callback once, and only callbacks registered in it. */
  predicate ItemsSound(st: State) {
    && (forall l :: 0 <= l < |st.lists| ==> NoRepeats(st.lists[l].items))
    && (forall l, i :: 0 <= l < |st.lists| && 0 <= i < |st.lists[l].items| ==> InPlace(st, l, st.lists[l].items[i]))
  }

  /** A callback in progress is in its array. */
  predicate ServingSound(st: State) {
    forall r :: 0 <= r < |st.requests| && st.requests[r].phase.Serving? ==>
      st.requests[r].phase.list < |st.lists| && r in st.lists[st.requests[r].phase.list].items
  }

  /** Every array holds exactly the callbacks registered in it, all of its task; none in the map is empty. */
  ghost predicate Sound(st: State) {
    MapSound(st) && PhasesSound(st) && ItemsSound(st) && ServingSound(st)
  }

  predicate InPlace(st: State, l: nat, r: nat) {
    r < |st.requests| && st.requests[r].phase == Serving(l)
  }

  /** Every callback in progress is in the running map's array of its task: none has been lost from it. */
  ghost predicate Bookkept(st: State) {
    forall r :: 0 <= r < |st.requests| && st.requests[r].phase.Serving? ==>
      st.requests[r].task in st.running && st.running[st.requests[r].task] == st.requests[r].phase.list
  }

  /** A new request, or one that changes neither array nor callback, keeps all. */
  lemma RequestIsSound(st: State, r: nat, request: Request)
    requires Sound(st) && r <= |st.requests|
    requires r < |st.requests| ==> !st.requests[r].phase.Serving?
    requires !request.phase.Serving?
    requires request.phase.HandedOff? ==>
      request.phase.list < |st.lists| && st.lists[request.phase.list].task == request.task
    ensures Sound(st.(requests := if r == |st.requests| then st.requests + [request] else st.requests[r := request]))
  {
  }

  lemma ReportedIsSound(st: State, r: nat, code: int, skipped: bool)
    requires Sound(st) && r < |st.requests| && !st.requests[r].phase.Serving?
    ensures Sound(Reported(st, r, code, skipped))
  {
    RequestIsSound(st, r, Reported(st, r, code, skipped).requests[r]);
  }

  lemma ListForIsSound(st: State, task: string)
    requires Sound(st)
    ensures var (listed, list) := ListFor(st, task);
            && Sound(listed) && list < |listed.lists| && listed.lists[list].task == task
            && listed.requests == st.requests && listed.running == st.running && listed.closing == st.closing
  {
  }

  lemma RegisteredIsSound(st: State, r: nat, list: nat)
    requires Sound(st) && r < |st.requests| && list < |st.lists|
    requires !st.requests[r].phase.Serving? && st.lists[list].task == st.requests[r].task
    ensures Sound(Registered(st, r, list))
  {
    RegisteredItems(st, r, list);
    RegisteredServing(st, r, list);
  }

  lemma RegisteredItems(st: State, r: nat, list: nat)
    requires ItemsSound(st) && r < |st.requests| && list < |st.lists| && !st.requests[r].phase.Serving?
    ensures ItemsSound(Registered(st, r, list))
  {
    var after := Registered(st, r, list);
    forall l, i | 0 <= l < |after.lists| && 0 <= i < |after.lists[l].items|
      ensures InPlace(after, l, after.lists[l].items[i])
    {
      if i < |st.lists[l].items| {
        assert InPlace(st, l, st.lists[l].items[i]);
      }
    }
    assert forall i :: 0 <= i < |st.lists[list].items| ==> InPlace(st, list, st.lists[list].items[i]);
  }

  lemma RegisteredServing(st: State, r: nat, list: nat)
    requires ServingSound(st) && r < |st.requests| && list < |st.lists|
    ensures ServingSound(Registered(st, r, list))
  {
    assert r in st.lists[list].items + [r];
  }

  lemma StartIsSound(st: State, policies: Policies, session: nat, run: string, task: string)
    requires Sound(st)
    ensures Sound(Started(st, policies, session, run, task))
  {
    var r := |st.requests|;
    var request := Request(session, run, task, false, false, Waiting);
    var next := st.(requests := st.requests + [request]);
    RequestIsSound(st, r, request);
    ListForIsSound(next, task);
    if !Started(st, policies, session, run, task).requests[r].phase.Serving? {
      ReportedIsSound(next, r, 1, false);
      ReportedIsSound(next, r, 1, true);
    } else {
      var (listed, list) := ListFor(next, task);
      RegisteredIsSound(listed, r, list);
    }
  }

  lemma WakeIsSound(st: State, policies: Policies, r: nat)
    requires Sound(st) && Enabled(st, Wake(r))
    ensures Sound(Woken(st, policies, r))
  {
    ListForIsSound(st, st.requests[r].task);
    var (listed, list) := ListFor(st, st.requests[r].task);
    RequestIsSound(listed, r, st.requests[r].(phase := HandedOff(list)));
  }

  lemma ResumeIsSound(st: State, r: nat)
    requires Sound(st) && Enabled(st, Resume(r))
    ensures Sound(Resumed(st, r))
  {
    if Resumed(st, r).requests[r].phase.Serving? {
      RegisteredIsSound(st, r, st.requests[r].phase.list);
    } else {
      ReportedIsSound(st, r, 143, false);
      ReportedIsSound(st, r, 1, false);
    }
  }

  lemma {:induction false} SplicedKeeps(items: seq<nat>, r: nat)
    requires r in items && NoRepeats(items)
    ensures NoRepeats(Spliced(items, r)) && r !in Spliced(items, r)
    ensures forall q :: q in Spliced(items, r) <==> q in items && q != r
  {
    var i := IndexOf(items, r);
    assert items == items[..i] + [r] + items[i + 1..];
  }

  lemma FinishIsSound(st: State, r: nat, code: int)
    requires Sound(st) && Enabled(st, Finish(r, code))
    ensures Sound(Finished(st, r, code))
  {
    var items := st.lists[st.requests[r].phase.list].items;
    SplicedKeeps(items, r);
    FinishedItems(st, r, code);
    FinishedMap(st, r, code);
  }

  lemma FinishedItems(st: State, r: nat, code: int)
    requires Sound(st) && Enabled(st, Finish(r, code))
    ensures ItemsSound(Finished(st, r, code))
  {
    var list, after := st.requests[r].phase.list, Finished(st, r, code);
    SplicedKeeps(st.lists[list].items, r);
    forall l, i | 0 <= l < |after.lists| && 0 <= i < |after.lists[l].items|
      ensures InPlace(after, l, after.lists[l].items[i])
    {
      assert after.lists[l].items[i] in st.lists[l].items;
    }
  }

  lemma FinishedMap(st: State, r: nat, code: int)
    requires Sound(st) && Enabled(st, Finish(r, code))
    ensures MapSound(Finished(st, r, code))
  {
    var list, after := st.requests[r].phase.list, Finished(st, r, code);
    forall task | task in after.running
      ensures after.lists[after.running[task]].items != []
    {
      assert st.running[task] == list ==> task == st.requests[r].task;
    }
  }

  /** Steps that only set flags keep all. */
  lemma FlagsAreSound(st: State, after: State)
    requires Sound(st) && after.running == st.running && after.lists == st.lists && |after.requests| == |st.requests|
    requires forall r :: 0 <= r < |st.requests| ==>
      after.requests[r].phase == st.requests[r].phase && after.requests[r].task == st.requests[r].task
    ensures Sound(after)
  {
    forall l, i | 0 <= l < |after.lists| && 0 <= i < |after.lists[l].items|
      ensures InPlace(after, l, after.lists[l].items[i])
    {
      assert InPlace(st, l, st.lists[l].items[i]);
    }
  }

  lemma StepIsSound(st: State, policies: Policies, step: Step)
    requires Sound(st) && Enabled(st, step)
    ensures Sound(Next(st, policies, step))
  {
    match step {
      case Start(session, run, task) => StartIsSound(st, policies, session, run, task);
      case Wake(r) => WakeIsSound(st, policies, r);
      case Resume(r) => ResumeIsSound(st, r);
      case Finish(r, code) => FinishIsSound(st, r, code);
      case _ => FlagsAreSound(st, Next(st, policies, step));
    }
  }

  // ----- Bookkeeping -----

  /**
    A waiter that goes on to run its callback finds the map as it left it: no
    array for its task, or still the one it was handed.
   */
  predicate Guarded(st: State, step: Step) {
    step.Resume? && step.request < |st.requests| && st.requests[step.request].phase.HandedOff?
      && !st.requests[step.request].aborted && !st.closing ==>
      var request := st.requests[step.request];
      request.task in st.running ==> st.running[request.task] == request.phase.list
  }

  lemma StartKeepsBooks(st: State, policies: Policies, session: nat, run: string, task: string)
    requires Sound(st) && Bookkept(st)
    ensures Bookkept(Started(st, policies, session, run, task))
  {
  }

  lemma WakeKeepsBooks(st: State, policies: Policies, r: nat)
    requires Sound(st) && Bookkept(st) && Enabled(st, Wake(r))
    ensures Bookkept(Woken(st, policies, r))
  {
  }

  lemma FinishKeepsBooks(st: State, r: nat, code: int)
    requires Sound(st) && Bookkept(st) && Enabled(st, Finish(r, code))
    ensures Bookkept(Finished(st, r, code))
  {
    var list, after := st.requests[r].phase.list, Finished(st, r, code);
    SplicedKeeps(st.lists[list].items, r);
    forall q | 0 <= q < |after.requests| && after.requests[q].phase.Serving?
      ensures after.requests[q].task in after.running && after.running[after.requests[q].task] == after.requests[q].phase.list
    {
      assert q != r && st.requests[q].phase.Serving?;
      assert st.requests[q].task == st.requests[r].task ==> q in Spliced(st.lists[list].items, r);
    }
  }

  /** Registering keeps the books if and only if the waiter finds the map as it left it. */
  lemma ResumeKeepsBooks(st: State, r: nat)
    requires Sound(st) && Bookkept(st) && Enabled(st, Resume(r))
    ensures Bookkept(Resumed(st, r)) <==> Guarded(st, Resume(r))
  {
    var request, after := st.requests[r], Resumed(st, r);
    if !Guarded(st, Resume(r)) {
      var other := st.running[request.task];
      var q := st.lists[other].items[0];
      assert InPlace(st, other, q);
      assert after.requests[q].phase == Serving(other) && after.running[after.requests[q].task] != other;
    }
  }

  lemma StepBooks(st: State, policies: Policies, step: Step)
    requires Sound(st) && Bookkept(st) && Enabled(st, step)
    ensures Bookkept(Next(st, policies, step)) <==> Guarded(st, step)
  {
    match step {
      case Start(session, run, task) => StartKeepsBooks(st, policies, session, run, task);
      case Wake(r) => WakeKeepsBooks(st, policies, r);
      case Resume(r) => ResumeKeepsBooks(st, r);
      case Finish(r, code) => FinishKeepsBooks(st, r, code);
      case _ =>
    }
  }

  // ----- Runs -----

  ghost predicate IsRun(states: seq<State>, policies: Policies, steps: seq<Step>) {
    && |states| == |steps| + 1
    && states[0] == IDLE
    && forall i :: 0 <= i < |steps| ==> Enabled(states[i], steps[i]) && states[i + 1] == Next(states[i], policies, steps[i])
  }

  lemma {:induction false} RunIsSound(states: seq<State>, policies: Policies, steps: seq<Step>)
    requires IsRun(states, policies, steps)
    ensures Sound(states[|steps|])
    decreases |steps|
  {
    if steps != [] {
      var n := |steps| - 1;
      RunIsSound(states[..n + 1], policies, steps[..n]);
      StepIsSound(states[n], policies, steps[n]);
    }
  }

  ghost predicate AlwaysBookkept(states: seq<State>) {
    forall i :: 0 <= i < |states| ==> Bookkept(states[i])
  }

  predicate AlwaysGuarded(states: seq<State>, steps: seq<Step>)
    requires |states| == |steps| + 1
  {
    forall i :: 0 <= i < |steps| ==> Guarded(states[i], steps[i])
  }

  /**
    Through any mix of starts, stops, disconnects and finishes: the running map
    holds every callback in progress at every step, if and only if every waiter
    that goes on to run finds the map as it left it.
   */
  lemma {:induction false} BooksExactlyWhenGuarded(states: seq<State>, policies: Policies, steps: seq<Step>)
    requires IsRun(states, policies, steps)
    ensures AlwaysBookkept(states) <==> AlwaysGuarded(states, steps)
    decreases |steps|
  {
    if steps != [] {
      var n := |steps| - 1;
      var before, first := states[..n + 1], steps[..n];
      BooksExactlyWhenGuarded(before, policies, first);
      RunIsSound(before, policies, first);
      OneMoreStep(states, steps, n);
      if Bookkept(states[n]) {
        StepBooks(states[n], policies, steps[n]);
      }
    }
  }

  lemma OneMoreStep(states: seq<State>, steps: seq<Step>, n: nat)
    requires |states| == |steps| + 1 == n + 2
    ensures AlwaysBookkept(states) <==> AlwaysBookkept(states[..n + 1]) && Bookkept(states[n + 1])
    ensures AlwaysBookkept(states[..n + 1]) ==> Bookkept(states[n])
    ensures AlwaysGuarded(states, steps) <==> AlwaysGuarded(states[..n + 1], steps[..n]) && Guarded(states[n], steps[n])
  {
    assert forall i :: 0 <= i <= n ==> states[..n + 1][i] == states[i];
    assert forall i :: 0 <= i < n ==> steps[..n][i] == steps[i];
    assert AlwaysBookkept(states[..n + 1]) ==> Bookkept(states[..n + 1][n]);
  }

  // ----- The atomic hand-off, and what it gives -----

  /**
    Nothing happens between a waiter's last look at the map and its callback's
    registration: in a state with a waiter handed off, the next step resumes it.
   */
  predicate HandOffIsNext(st: State, step: Step) {
    forall r :: 0 <= r < |st.requests| && st.requests[r].phase.HandedOff? ==> step == Resume(r)
  }

  predicate Atomic(states: seq<State>, steps: seq<Step>)
    requires |states| == |steps| + 1
  {
    forall i :: 0 <= i < |steps| ==> HandOffIsNext(states[i], steps[i])
  }

  /** Callbacks of a task whose policy isn't kill never outnumber its max_concurrent. */
  ghost predicate Bounded(st: State, policies: Policies)
    requires InBounds(st)
  {
    forall task :: task in st.running && policies(task).onOverlap != Kill ==>
      |st.lists[st.running[task]].items| <= policies(task).maxConcurrent
  }

  /** The waiter handed off holds the array in the map, if there is one, and has room in it unless it won't run. */
  predicate FreshHandOffs(st: State, policies: Policies) {
    forall r :: 0 <= r < |st.requests| && st.requests[r].phase.HandedOff? ==>
      var request := st.requests[r];
      && request.phase.list < |st.lists|
      && (request.task in st.running ==> st.running[request.task] == request.phase.list)
      && (HasRoom(st, request.phase.list, policies(request.task).maxConcurrent) || request.aborted || st.closing)
  }

  ghost predicate AtomicInv(st: State, policies: Policies) {
    Sound(st) && Bookkept(st) && Bounded(st, policies) && FreshHandOffs(st, policies)
  }

  lemma StartStaysBounded(st: State, policies: Policies, session: nat, run: string, task: string)
    requires Sound(st) && Bounded(st, policies)
    ensures Bounded(Started(st, policies, session, run, task), policies)
  {
  }

  lemma ResumeStaysBounded(st: State, policies: Policies, r: nat)
    requires Sound(st) && Bounded(st, policies) && FreshHandOffs(st, policies) && Enabled(st, Resume(r))
    ensures Bounded(Resumed(st, r), policies)
  {
  }

  lemma FinishStaysBounded(st: State, policies: Policies, r: nat, code: int)
    requires Sound(st) && Bounded(st, policies) && Enabled(st, Finish(r, code))
    ensures Bounded(Finished(st, r, code), policies)
  {
    assert |Spliced(st.lists[st.requests[r].phase.list].items, r)| == |st.lists[st.requests[r].phase.list].items| - 1;
  }

  lemma StepStaysBounded(st: State, policies: Policies, step: Step)
    requires Sound(st) && Bounded(st, policies) && FreshHandOffs(st, policies) && Enabled(st, step)
    ensures InBounds(Next(st, policies, step)) && Bounded(Next(st, policies, step), policies)
  {
    StepIsSound(st, policies, step);
    match step {
      case Start(session, run, task) => StartStaysBounded(st, policies, session, run, task);
      case Resume(r) => ResumeStaysBounded(st, policies, r);
      case Finish(r, code) => FinishStaysBounded(st, policies, r, code);
      case _ =>
    }
  }

  /** Without a waiter handed off before, a step hands off at most the one it wakes. */
  predicate NoneHandedOff(st: State) {
    forall r :: 0 <= r < |st.requests| ==> !st.requests[r].phase.HandedOff?
  }

  lemma NoneIsFresh(st: State, policies: Policies)
    requires NoneHandedOff(st)
    ensures FreshHandOffs(st, policies)
  {
  }

  lemma StartHandsOffNone(st: State, policies: Policies, session: nat, run: string, task: string)
    requires InBounds(st) && NoneHandedOff(st)
    ensures NoneHandedOff(Started(st, policies, session, run, task))
  {
  }

  lemma WakeHandsOffFresh(st: State, policies: Policies, r: nat)
    requires NoneHandedOff(st) && Enabled(st, Wake(r))
    ensures FreshHandOffs(Woken(st, policies, r), policies)
  {
  }

  lemma ResumeHandsOffNone(st: State, r: nat)
    requires Enabled(st, Resume(r)) && HandOffIsNext(st, Resume(r))
    ensures NoneHandedOff(Resumed(st, r))
  {
  }

  lemma OthersHandOffNone(st: State, policies: Policies, step: Step)
    requires NoneHandedOff(st) && Enabled(st, step) && (step.Finish? || step.Abort? || step.KillRun? || step.Close?)
    ensures NoneHandedOff(Next(st, policies, step))
  {
  }

  lemma HandOffsStayFresh(st: State, policies: Policies, step: Step)
    requires Enabled(st, step) && HandOffIsNext(st, step)
    ensures FreshHandOffs(Next(st, policies, step), policies)
  {
    match step {
      case Start(session, run, task) => StartHandsOffNone(st, policies, session, run, task);
      case Wake(r) => WakeHandsOffFresh(st, policies, r);
      case Resume(r) => ResumeHandsOffNone(st, r);
      case _ => OthersHandOffNone(st, policies, step);
    }
    if !step.Wake? {
      NoneIsFresh(Next(st, policies, step), policies);
    }
  }

  lemma {:induction false} AtomicRun(states: seq<State>, policies: Policies, steps: seq<Step>)
    requires IsRun(states, policies, steps) && Atomic(states, steps)
    ensures AtomicInv(states[|steps|], policies)
    decreases |steps|
  {
    if steps != [] {
      var n := |steps| - 1;
      AtomicRun(states[..n + 1], policies, steps[..n]);
      StepIsSound(states[n], policies, steps[n]);
      StepBooks(states[n], policies, steps[n]);
      StepStaysBounded(states[n], policies, steps[n]);
      HandOffsStayFresh(states[n], policies, steps[n]);
    }
  }

  /** The callbacks of task in progress. */
  function InProgress(st: State, task: string): set<nat> {
    set r: nat | r < |st.requests| && st.requests[r].phase.Serving? && st.requests[r].task == task
  }

  lemma {:induction false} CardinalityOfItems(items: seq<nat>)
    requires NoRepeats(items)
    ensures |set i | 0 <= i < |items| :: items[i]| == |items|
  {
    var s := set i | 0 <= i < |items| :: items[i];
    if items != [] {
      var last, rest := items[|items| - 1], items[..|items| - 1];
      var t := set i | 0 <= i < |rest| :: rest[i];
      CardinalityOfItems(rest);
      assert s == t + {last};
      assert last !in t;
    }
  }

  /** Under bookkeeping, the map's array of a task is its callbacks in progress, each once. */
  lemma BooksAreComplete(st: State, task: string)
    requires Sound(st) && Bookkept(st)
    ensures task in st.running ==>
      && (forall r :: r in InProgress(st, task) <==> r in st.lists[st.running[task]].items)
      && |InProgress(st, task)| == |st.lists[st.running[task]].items|
    ensures task !in st.running ==> InProgress(st, task) == {}
  {
    if task in st.running {
      var items := st.lists[st.running[task]].items;
      forall r | r in items ensures r in InProgress(st, task) {
        var i :| 0 <= i < |items| && items[i] == r;
        assert InPlace(st, st.running[task], items[i]);
      }
      assert InProgress(st, task) == set i | 0 <= i < |items| :: items[i];
      CardinalityOfItems(items);
    }
  }

  /** Under bookkeeping, what size counts is the callbacks in progress. */
  lemma SizeCountsCallbacks(st: State)
    requires Sound(st) && Bookkept(st)
    ensures ListedRequests(st) == set r: nat | r < |st.requests| && st.requests[r].phase.Serving?
  {
    forall r | r in ListedRequests(st) ensures r < |st.requests| && st.requests[r].phase.Serving? {
      ListedExactly(st, r);
    }
    forall r: nat | r < |st.requests| && st.requests[r].phase.Serving? ensures r in ListedRequests(st) {
      ListedExactly(st, r);
    }
  }

  /**
    With an atomic hand-off, at every step of every run the running map holds
    exactly the callbacks in progress, and those of a task on queue or skip
    never outnumber its max_concurrent.
   */
  lemma AtomicHandOffKeepsBooks(states: seq<State>, policies: Policies, steps: seq<Step>, task: string)
    requires IsRun(states, policies, steps) && Atomic(states, steps)
    ensures var st := states[|steps|];
            && InBounds(st)
            && (task in st.running ==> forall r :: r in InProgress(st, task) <==> r in st.lists[st.running[task]].items)
            && (task !in st.running ==> InProgress(st, task) == {})
            && (policies(task).onOverlap != Kill ==> |InProgress(st, task)| <= policies(task).maxConcurrent)
  {
    AtomicRun(states, policies, steps);
    BooksAreComplete(states[|steps|], task);
  }

  /** A waiter that finds the map as it left it keeps the bound if and only if its array still has room. */
  lemma ResumeBoundedExactly(st: State, policies: Policies, r: nat)
    requires Sound(st) && Bounded(st, policies) && Enabled(st, Resume(r)) && Guarded(st, Resume(r))
    requires Resumed(st, r).requests[r].phase.Serving? && policies(st.requests[r].task).onOverlap != Kill
    ensures Bounded(Resumed(st, r), policies)
       <==> HasRoom(st, st.requests[r].phase.list, policies(st.requests[r].task).maxConcurrent)
  {
    var request, after := st.requests[r], Resumed(st, r);
    assert |after.lists[after.running[request.task]].items| == |st.lists[request.phase.list].items| + 1;
  }

  // ----- Two waiters -----

  /** Three runs of one task, at most one at a time: the first ends while the other two wait for it. */
  const TWO_WAITERS: seq<Step> := [
    Start(0, "1", "task"), Start(0, "2", "task"), Start(0, "3", "task"), Finish(0, 0),
    Wake(1), Wake(2), Resume(1), Resume(2), Finish(1, 0)]

  function Waiter(run: string, phase: Phase): Request {
    Request(0, run, "task", false, false, phase)
  }

  /** The state after k of those steps. */
  function TwoWaitersAfter(k: nat): State
    requires k <= 9
  {
    var exit, ended := Exit(0, 0, false), Waiter("1", Done(0, false));
    var empty := Array("task", []);
    var busy := State(map["task" := 0], [Array("task", [0])], [Waiter("1", Serving(0))], false, []);
    if k == 0 then IDLE
    else if k == 1 then busy
    else if k == 2 then busy.(requests := [Waiter("1", Serving(0)), Waiter("2", Waiting)])
    else if k == 3 then busy.(requests := [Waiter("1", Serving(0)), Waiter("2", Waiting), Waiter("3", Waiting)])
    else if k == 4 then State(map[], [empty], [ended, Waiter("2", Waiting), Waiter("3", Waiting)], false, [exit])
    else if k == 5 then State(map[], [empty, empty], [ended, Waiter("2", HandedOff(1)), Waiter("3", Waiting)], false, [exit])
    else if k == 6 then
      State(map[], [empty, empty, empty], [ended, Waiter("2", HandedOff(1)), Waiter("3", HandedOff(2))], false, [exit])
    else if k == 7 then
      State(map["task" := 1], [empty, Array("task", [1]), empty],
            [ended, Waiter("2", Serving(1)), Waiter("3", HandedOff(2))], false, [exit])
    else if k == 8 then
      State(map["task" := 2], [empty, Array("task", [1]), Array("task", [2])],
            [ended, Waiter("2", Serving(1)), Waiter("3", Serving(2))], false, [exit])
    else
      State(map[], [empty, empty, Array("task", [2])],
            [ended, Waiter("2", Done(0, false)), Waiter("3", Serving(2))], false, [exit, Exit(1, 0, false)])
  }

  ghost predicate TwoWaitersGoes(policies: Policies, k: nat)
    requires k < 9
  {
    && Enabled(TwoWaitersAfter(k), TWO_WAITERS[k])
    && TwoWaitersAfter(k + 1) == Next(TwoWaitersAfter(k), policies, TWO_WAITERS[k])
  }

  lemma TwoWaitersStarts(policies: Policies)
    requires policies("task") == Policy(Queue, 1)
    ensures TwoWaitersGoes(policies, 0) && TwoWaitersGoes(policies, 1) && TwoWaitersGoes(policies, 2)
  {
    assert [] + [0] == [0] && [] + [Array("task", [])] == [Array("task", [])];
  }

  lemma TwoWaitersWakes(policies: Policies)
    requires policies("task") == Policy(Queue, 1)
    ensures TwoWaitersGoes(policies, 3) && TwoWaitersGoes(policies, 4) && TwoWaitersGoes(policies, 5)
  {
    assert Spliced([0], 0) == [];
  }

  lemma TwoWaitersResume(policies: Policies)
    ensures TwoWaitersGoes(policies, 6) && TwoWaitersGoes(policies, 7)
  {
    assert [] + [1] == [1] && [] + [2] == [2];
    assert map["task" := 1]["task" := 2] == map["task" := 2];
  }

  lemma TwoWaitersEnd(policies: Policies)
    ensures TwoWaitersGoes(policies, 8)
  {
    assert Spliced([1], 1) == [];
  }

  lemma TwoWaitersStep(policies: Policies, k: nat)
    requires policies("task") == Policy(Queue, 1) && k < 9
    ensures TwoWaitersGoes(policies, k)
  {
    if k < 3 {
      TwoWaitersStarts(policies);
    } else if k < 6 {
      TwoWaitersWakes(policies);
    } else if k < 8 {
      TwoWaitersResume(policies);
    } else {
      TwoWaitersEnd(policies);
    }
  }

  /**
    Without the atomic hand-off the books are lost: both waiters run at once,
    and when the first of them ends, the map is empty, so close() would resolve
    and stop() would not reach the other, which still runs.
   */
  lemma TwoWaiters(policies: Policies) returns (states: seq<State>)
    requires policies("task") == Policy(Queue, 1)
    ensures IsRun(states, policies, TWO_WAITERS)
    ensures InProgress(states[8], "task") == {1, 2} && !Bookkept(states[8])
    ensures states[9].running == map[] && InProgress(states[9], "task") == {2}
    ensures Aborted(states[9], OfRun("3")) == states[9]
  {
    states := seq(10, k requires 0 <= k < 10 => TwoWaitersAfter(k));
    forall k | 0 <= k < 9
      ensures Enabled(states[k], TWO_WAITERS[k]) && states[k + 1] == Next(states[k], policies, TWO_WAITERS[k])
    {
      TwoWaitersStep(policies, k);
    }
    assert states[8].requests[1].phase == Serving(1) && states[8].running["task"] == 2;
  }

  // ----- Shutdown and exits -----

  /** Once closing, no callback begins: those in progress only get fewer. */
  lemma {:induction false} ClosingBeginsNothing(states: seq<State>, policies: Policies, steps: seq<Step>, i: nat, task: string)
    requires IsRun(states, policies, steps) && i <= |steps| && states[i].closing
    ensures states[|steps|].closing
    ensures InProgress(states[|steps|], task) <= InProgress(states[i], task)
    decreases |steps|
  {
    if i < |steps| {
      var n := |steps| - 1;
      ClosingBeginsNothing(states[..n + 1], policies, steps[..n], i, task);
      ClosingStep(states[n], policies, steps[n], task);
    }
  }

  lemma ClosingStep(st: State, policies: Policies, step: Step, task: string)
    requires Enabled(st, step) && st.closing
    ensures Next(st, policies, step).closing
    ensures InProgress(Next(st, policies, step), task) <= InProgress(st, task)
  {
  }

  /** close() goes on once the running map is empty: under bookkeeping, no callback is left then. */
  lemma CloseWaitsForAll(st: State)
    requires Sound(st) && Bookkept(st) && st.running == map[]
    ensures forall r :: 0 <= r < |st.requests| ==> !st.requests[r].phase.Serving?
  {
  }

  /** The callback of request r is in the running map. */
  predicate Registers(st: State, r: nat) {
    && r < |st.requests| && st.requests[r].phase.Serving?
    && st.requests[r].task in st.running && st.running[st.requests[r].task] == st.requests[r].phase.list
  }

  /**
    Of the requests they look for and have not aborted before, stop and
    disconnected abort those that wait and those whose callback is in the map:
    they miss a waiter between its two awaits, and a callback lost from the map.
   */
  lemma StopReachesExactly(st: State, m: Match, r: nat)
    requires Sound(st) && r < |st.requests| && m.Matches(st.requests[r]) && !st.requests[r].aborted
    ensures Aborted(st, m).requests[r].aborted <==> st.requests[r].phase.Waiting? || Registers(st, r)
    ensures Bookkept(st) ==>
              (Aborted(st, m).requests[r].aborted <==> st.requests[r].phase.Waiting? || st.requests[r].phase.Serving?)
  {
    ListedExactly(st, r);
  }

  lemma ListedExactly(st: State, r: nat)
    requires Sound(st)
    ensures r in ListedRequests(st) <==> Registers(st, r)
  {
    if Registers(st, r) {
      var items := st.lists[st.running[st.requests[r].task]].items;
      var i :| 0 <= i < |items| && items[i] == r;
    }
  }

  /** The exits reported for a request. */
  function ExitsOf(exits: seq<Exit>, r: nat): seq<Exit> {
    if exits == [] then []
    else ExitsOf(exits[..|exits| - 1], r) + (if exits[|exits| - 1].request == r then [exits[|exits| - 1]] else [])
  }

  function DueExits(r: nat, phase: Phase): seq<Exit> {
    if phase.Done? then [Exit(r, phase.code, phase.skipped)] else []
  }

  /** A request reports its exit once, when it is done with it, and 143 when its abort fired before that. */
  ghost predicate ExitsSound(st: State) {
    && (forall i :: 0 <= i < |st.exits| ==> st.exits[i].request < |st.requests|)
    && (forall r :: 0 <= r < |st.requests| ==>
          ExitsOf(st.exits, r) == DueExits(r, st.requests[r].phase))
    && (forall r :: 0 <= r < |st.requests| && st.requests[r].phase.Done? && st.requests[r].aborted ==>
          st.requests[r].phase.code == 143)
  }

  lemma {:induction false} NoExitsOf(exits: seq<Exit>, r: nat)
    requires forall i :: 0 <= i < |exits| ==> exits[i].request != r
    ensures ExitsOf(exits, r) == []
  {
    if exits != [] {
      NoExitsOf(exits[..|exits| - 1], r);
    }
  }

  lemma ReportedOnce(st: State, r: nat, code: int, skipped: bool)
    requires ExitsSound(st) && r < |st.requests| && !st.requests[r].phase.Done?
    ensures ExitsSound(Reported(st, r, code, skipped))
  {
    var after := Reported(st, r, code, skipped);
    assert after.exits[..|after.exits| - 1] == st.exits;
    forall q | 0 <= q < |after.requests|
      ensures ExitsOf(after.exits, q) == DueExits(q, after.requests[q].phase)
    {
      assert ExitsOf(st.exits, q) + [] == ExitsOf(st.exits, q);
      assert [] + [Exit(r, after.exits[|after.exits| - 1].code, skipped)] == [Exit(r, after.exits[|after.exits| - 1].code, skipped)];
    }
  }

  lemma FinishReportsOnce(st: State, r: nat, code: int)
    requires ExitsSound(st) && Enabled(st, Finish(r, code))
    ensures ExitsSound(Finished(st, r, code))
  {
    var after := Finished(st, r, code);
    ReportedOnce(st.(lists := after.lists, running := after.running), r, code, false);
  }

  /** A request that moves on without being done, and without an exit, is still to report. */
  lemma MovedReportsNothing(st: State, after: State, r: nat)
    requires ExitsSound(st) && r < |st.requests| && !st.requests[r].phase.Done?
    requires after.exits == st.exits && |after.requests| == |st.requests| && !after.requests[r].phase.Done?
    requires forall q :: 0 <= q < |st.requests| && q != r ==> after.requests[q] == st.requests[q]
    ensures ExitsSound(after)
  {
  }

  /** A request that waits has reported nothing. */
  lemma NewReportsNothing(st: State, request: Request)
    requires ExitsSound(st) && request.phase.Waiting?
    ensures ExitsSound(st.(requests := st.requests + [request]))
  {
    NoExitsOf(st.exits, |st.requests|);
  }

  lemma StartReportsOnce(st: State, policies: Policies, session: nat, run: string, task: string)
    requires Sound(st) && ExitsSound(st)
    ensures ExitsSound(Started(st, policies, session, run, task))
  {
    var r, request := |st.requests|, Request(session, run, task, false, false, Waiting);
    var next := st.(requests := st.requests + [request]);
    var after := Started(st, policies, session, run, task);
    NewReportsNothing(st, request);
    if after.requests[r].phase.Done? {
      ReportedOnce(next, r, 1, false);
      ReportedOnce(next, r, 1, true);
    } else {
      MovedReportsNothing(next, after, r);
    }
  }

  lemma WakeReportsNothing(st: State, policies: Policies, r: nat)
    requires ExitsSound(st) && Enabled(st, Wake(r))
    ensures ExitsSound(Woken(st, policies, r))
  {
    MovedReportsNothing(st, Woken(st, policies, r), r);
  }

  lemma ResumeReportsOnce(st: State, r: nat)
    requires ExitsSound(st) && Enabled(st, Resume(r))
    ensures ExitsSound(Resumed(st, r))
  {
    if st.requests[r].aborted {
      ReportedOnce(st, r, 143, false);
    } else if st.closing {
      ReportedOnce(st, r, 1, false);
    } else {
      MovedReportsNothing(st, Resumed(st, r), r);
    }
  }

  /** Flags of requests that are not done report nothing. */
  lemma FlagsReportNothing(st: State, after: State)
    requires ExitsSound(st) && after.exits == st.exits && |after.requests| == |st.requests|
    requires forall r :: 0 <= r < |st.requests| ==>
      after.requests[r].phase == st.requests[r].phase
      && (st.requests[r].phase.Done? ==> after.requests[r].aborted == st.requests[r].aborted)
    ensures ExitsSound(after)
  {
  }

  lemma AbortReportsNothing(st: State, m: Match)
    requires Sound(st) && ExitsSound(st)
    ensures ExitsSound(Aborted(st, m))
  {
    forall r | r in ListedRequests(st) ensures r < |st.requests| && st.requests[r].phase.Serving? {
      ListedExactly(st, r);
    }
    FlagsReportNothing(st, Aborted(st, m));
  }

  lemma KillReportsNothing(st: State, run: string)
    requires Sound(st) && ExitsSound(st)
    ensures ExitsSound(Killed(st, run))
  {
    AbortReportsNothing(st, OfRun(run));
    FlagsReportNothing(Aborted(st, OfRun(run)), Killed(st, run));
  }

  lemma StepReportsOnce(st: State, policies: Policies, step: Step)
    requires Sound(st) && ExitsSound(st) && Enabled(st, step)
    ensures ExitsSound(Next(st, policies, step))
  {
    match step {
      case Start(session, run, task) => StartReportsOnce(st, policies, session, run, task);
      case Wake(r) => WakeReportsNothing(st, policies, r);
      case Resume(r) => ResumeReportsOnce(st, r);
      case Finish(r, code) => FinishReportsOnce(st, r, code);
      case Abort(m) => AbortReportsNothing(st, m);
      case KillRun(run) => KillReportsNothing(st, run);
      case Close => FlagsReportNothing(st, st.(closing := true));
    }
  }

  /** Every started run, in every run of the runner, reports at most one exit, exactly one once it is done. */
  lemma {:induction false} ExitsReportedOnce(states: seq<State>, policies: Policies, steps: seq<Step>)
    requires IsRun(states, policies, steps)
    ensures ExitsSound(states[|steps|])
    decreases |steps|
  {
    if steps != [] {
      var n := |steps| - 1;
      ExitsReportedOnce(states[..n + 1], policies, steps[..n]);
      RunIsSound(states[..n + 1], policies, steps[..n]);
      StepReportsOnce(states[n], policies, steps[n]);
    }
  }
}
