/**
  packages/js/src/runner.ts: callbacks that serve the runs RunWisp starts on a
  JavaScript app. Each method is one stretch of code between two awaits, so any
  interleaving of the async functions is an order of steps.

  The source shares arrays by reference between the running map and the
  suspended functions, so arrays have an identity here: lists holds them all,
  and everything else names one by its index.
 */
module RunnerSteps {

  // ----- State -----

  datatype OnOverlap = Queue | Skip | Kill

  datatype Policy = Policy(onOverlap: OnOverlap, maxConcurrent: nat)

  type Policies = string -> Policy

  /** An array of executions of task, which no code reads off it: it is the key it is stored under. */
  datatype Array = Array(task: string, items: seq<nat>)

  /**
    Where a started run is: in waitForTurn's loop; out of it, holding the array
    it returned, but not yet resumed in execute; in its callback, registered in
    an array; or reported, with its exit.
   */
  datatype Phase =
    | Waiting
    | HandedOff(list: nat)
    | Serving(list: nat)
    | Done(code: int, skipped: bool)

  datatype Request = Request(session: nat, run: string, task: string, aborted: bool, killed: bool, phase: Phase)

  /** One call of session.exit for a request. */
  datatype Exit = Exit(request: nat, code: int, skipped: bool)

  datatype State = State(
    running: map<string, nat>,
    lists: seq<Array>,
    requests: seq<Request>,
    closing: bool,
    exits: seq<Exit>)

  const IDLE := State(map[], [], [], false, [])

  /** What stop and disconnected look for. */
  datatype Match = OfRun(run: string) | OfSession(session: nat) {
    predicate Matches(r: Request) {
      match this
      case OfRun(run) => r.run == run
      case OfSession(session) => r.session == session
    }
  }

  datatype Step =
    | Start(session: nat, run: string, task: string)
    | Wake(request: nat)
    | Resume(request: nat)
    | Finish(request: nat, code: int)
    | Abort(match_: Match)
    | KillRun(run: string)
    | Close

  // ----- What each stretch does -----

  /** The map's array of the task, or a new one that the map does not hold. */
  function ListFor(st: State, task: string): (State, nat) {
    if task in st.running then (st, st.running[task])
    else (st.(lists := st.lists + [Array(task, [])]), |st.lists|)
  }

  predicate HasRoom(st: State, list: nat, maxConcurrent: nat)
    requires list < |st.lists|
  {
    |st.lists[list].items| < maxConcurrent
  }

  /** Makes the array the one in the map, whatever was there, and adds the callback at its end. */
  function Registered(st: State, r: nat, list: nat): State
    requires r < |st.requests| && list < |st.lists|
  {
    var request := st.requests[r];
    st.(running := st.running[request.task := list],
        lists := st.lists[list := st.lists[list].(items := st.lists[list].items + [r])],
        requests := st.requests[r := request.(phase := Serving(list))])
  }

  function Reported(st: State, r: nat, code: int, skipped: bool): State
    requires r < |st.requests|
  {
    var request := st.requests[r];
    var reported := if request.aborted then 143 else code;
    st.(requests := st.requests[r := request.(phase := Done(reported, skipped))],
        exits := st.exits + [Exit(r, reported, skipped)])
  }

  predicate InBounds(st: State) {
    forall task :: task in st.running ==> st.running[task] < |st.lists|
  }

  function Started(st: State, policies: Policies, session: nat, run: string, task: string): State
    requires InBounds(st)
  {
    var r := |st.requests|;
    var next := st.(requests := st.requests + [Request(session, run, task, false, false, Waiting)]);
    if st.closing then Reported(next, r, 1, false)
    else
      var (listed, list) := ListFor(next, task);
      var policy := policies(task);
      if !HasRoom(listed, list, policy.maxConcurrent) && policy.onOverlap != Kill then
        if policy.onOverlap == Skip then Reported(next, r, 1, true) else next
      else Registered(listed, r, list)
  }

  /** The race of waitForTurn resolved: the loop checks again, and returns or waits on. */
  function Woken(st: State, policies: Policies, r: nat): State
    requires InBounds(st) && r < |st.requests|
  {
    var request := st.requests[r];
    var (listed, list) := ListFor(st, request.task);
    if !HasRoom(listed, list, policies(request.task).maxConcurrent) && !request.aborted && !st.closing then st
    else listed.(requests := st.requests[r := request.(phase := HandedOff(list))])
  }

  /** execute goes on with the array waitForTurn returned. */
  function Resumed(st: State, r: nat): State
    requires r < |st.requests| && st.requests[r].phase.HandedOff? && st.requests[r].phase.list < |st.lists|
  {
    if st.requests[r].aborted then Reported(st, r, 143, false)
    else if st.closing then Reported(st, r, 1, false)
    else Registered(st, r, st.requests[r].phase.list)
  }

  function IndexOf(items: seq<nat>, r: nat): (i: nat)
    ensures i <= |items|
    ensures i < |items| ==> items[i] == r
    ensures r in items ==> i < |items|
    ensures r !in items[..i]
  {
    if items == [] || items[0] == r then 0
    else
      var i := IndexOf(items[1..], r);
      assert items[..i + 1] == [items[0]] + items[1..][..i];
      i + 1
  }

  /** The array without the callback's first entry. */
  function Spliced(items: seq<nat>, r: nat): seq<nat>
    requires r in items
  {
    items[..IndexOf(items, r)] + items[IndexOf(items, r) + 1..]
  }

  /** The callback returned or threw. */
  function Finished(st: State, r: nat, code: int): State
    requires r < |st.requests| && st.requests[r].phase.Serving? && st.requests[r].phase.list < |st.lists|
    requires r in st.lists[st.requests[r].phase.list].items
  {
    var list := st.requests[r].phase.list;
    var left := Spliced(st.lists[list].items, r);
    var removed := st.(lists := st.lists[list := st.lists[list].(items := left)]);
    Reported(if left == [] then removed.(running := st.running - {st.requests[r].task}) else removed, r, code, false)
  }

  /** Requests with the abort fired of those in hit that m matches. */
  ghost function Marked(requests: seq<Request>, m: Match, hit: set<nat>): (after: seq<Request>)
    ensures |after| == |requests|
  {
    seq(|requests|, r requires 0 <= r < |requests| =>
      if r in hit && m.Matches(requests[r]) then requests[r].(aborted := true) else requests[r])
  }

  ghost function ListedRequests(st: State): set<nat>
    requires InBounds(st)
  {
    set task, i | task in st.running && 0 <= i < |st.lists[st.running[task]].items| :: st.lists[st.running[task]].items[i]
  }

  function WaitingRequests(requests: seq<Request>): set<nat> {
    set r: nat | r < |requests| && requests[r].phase.Waiting?
  }

  /** abortWhere: every match in the running map and among the waiting. */
  ghost function Aborted(st: State, m: Match): State
    requires InBounds(st)
  {
    st.(requests := Marked(st.requests, m, ListedRequests(st) + WaitingRequests(st.requests)))
  }

  /** Requests with the kill fired of those of run in hit. */
  ghost function MarkedKilled(requests: seq<Request>, run: string, hit: set<nat>): (after: seq<Request>)
    ensures |after| == |requests|
  {
    seq(|requests|, r requires 0 <= r < |requests| =>
      if r in hit && requests[r].run == run then requests[r].(killed := true) else requests[r])
  }

  ghost function Killed(st: State, run: string): State
    requires InBounds(st)
  {
    var stopped := Aborted(st, OfRun(run));
    stopped.(requests := MarkedKilled(stopped.requests, run, ListedRequests(st)))
  }

  // ----- Steps -----

  ghost predicate Enabled(st: State, step: Step) {
    InBounds(st) &&
    match step
    case Wake(r) => r < |st.requests| && st.requests[r].phase.Waiting?
    case Resume(r) => r < |st.requests| && st.requests[r].phase.HandedOff? && st.requests[r].phase.list < |st.lists|
    case Finish(r, _) =>
      && r < |st.requests| && st.requests[r].phase.Serving? && st.requests[r].phase.list < |st.lists|
      && r in st.lists[st.requests[r].phase.list].items
    case _ => true
  }

  ghost function Next(st: State, policies: Policies, step: Step): State
    requires Enabled(st, step)
  {
    match step
    case Start(session, run, task) => Started(st, policies, session, run, task)
    case Wake(r) => Woken(st, policies, r)
    case Resume(r) => Resumed(st, r)
    case Finish(r, code) => Finished(st, r, code)
    case Abort(m) => Aborted(st, m)
    case KillRun(run) => Killed(st, run)
    case Close => st.(closing := true)
  }
}
