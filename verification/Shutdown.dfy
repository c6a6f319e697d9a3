/**
  apps/runwisp/cmd/runwisp/daemon_lifecycle.go: the order and the time of a
  graceful shutdown. Times are in milliseconds; each wait ends at its deadline,
  and calls that do not wait take no time.
 */
module Shutdown {
  import opened Wrappers
  import opened ServiceOrder
  import opened DependencyOrder

  const INPUT_DRAIN_TIMEOUT := 3000
  const FALLBACK_TASK_TIMEOUT := 3000
  const DRAIN_KILL_MARGIN := 5000

  /** How often WaitIdle looks again. */
  const IDLE_TICK := 50

  function EffectiveTaskTimeout(taskTimeout: int): nat {
    if taskTimeout <= 0 then FALLBACK_TASK_TIMEOUT else taskTimeout
  }

  function ShutdownBudget(taskTimeout: int): nat {
    INPUT_DRAIN_TIMEOUT + 2 * EffectiveTaskTimeout(taskTimeout) + DRAIN_KILL_MARGIN
  }

  /**
    What the services and the other layers do: which services refuse StopService,
    how long after being told each is idle (never, when missing), and how long
    the input layer and the bulk drain take (forever, when None).
   */
  datatype World = World(refuses: set<string>, idleAfter: map<string, nat>, input: Option<nat>, drain: Option<nat>)

  /** A wait for something that takes this long, under a deadline. */
  function Awaited(takes: Option<nat>, limit: nat): (spent: nat)
    ensures spent <= limit
  {
    if takes.Some? && takes.value < limit then takes.value else limit
  }

  /** The first look at which a service that is idle after a time is seen idle. */
  function NextTick(after: nat): (tick: nat)
    ensures after <= tick < after + IDLE_TICK && tick % IDLE_TICK == 0
  {
    (after + IDLE_TICK - 1) / IDLE_TICK * IDLE_TICK
  }

  /** runtime/manager_run.go: WaitIdle */
  function IdleAwaited(world: World, name: string, limit: nat): nat {
    Awaited(if name in world.idleAfter then Some(NextTick(world.idleAfter[name])) else None, limit)
  }

  /** The services told to stop, and when, and when the pass over them ends. */
  datatype Told = Told(task: Task, at: nat)
  datatype Pass = Pass(told: seq<Told>, elapsed: nat)

  function Spent(world: World, name: string, left: nat): (spent: nat)
    ensures spent <= left
  {
    if name in world.refuses then 0 else IdleAwaited(world, name, left)
  }

  function PreStopped(order: seq<Task>, world: World, elapsed: nat, timeout: nat): Pass {
    if order == [] || elapsed >= timeout then Pass([], elapsed)
    else
      var rest := PreStopped(order[1..], world, elapsed + Spent(world, order[0].name, timeout - elapsed), timeout);
      Pass([Told(order[0], elapsed)] + rest.told, rest.elapsed)
  }

  lemma OneTold(order: seq<Task>, i: nat, told: seq<Told>, world: World, elapsed: nat, timeout: nat)
    requires i < |order| && elapsed < timeout
    ensures var next := elapsed + Spent(world, order[i].name, timeout - elapsed);
            var rest, after := PreStopped(order[i..], world, elapsed, timeout), PreStopped(order[i + 1..], world, next, timeout);
            told + rest.told == (told + [Told(order[i], elapsed)]) + after.told && rest.elapsed == after.elapsed
  {
    assert order[i..][1..] == order[i + 1..];
  }

  /** What the loop has told and spent, against the whole pass. */
  ghost predicate Telling(whole: Pass, order: seq<Task>, i: nat, told: seq<Told>, world: World, elapsed: nat, timeout: nat) {
    && i <= |order|
    && var rest := PreStopped(order[i..], world, elapsed, timeout);
       whole.told == told + rest.told && whole.elapsed == rest.elapsed
  }

  lemma TellingStep(whole: Pass, order: seq<Task>, i: nat, told: seq<Told>, world: World, elapsed: nat, timeout: nat)
    requires Telling(whole, order, i, told, world, elapsed, timeout)
    ensures i < |order| && elapsed < timeout ==>
              Telling(whole, order, i + 1, told + [Told(order[i], elapsed)], world,
                      elapsed + Spent(world, order[i].name, timeout - elapsed), timeout)
    ensures i == |order| || elapsed >= timeout ==> whole == Pass(told, elapsed)
  {
    if i < |order| && elapsed < timeout {
      OneTold(order, i, told, world, elapsed, timeout);
    } else {
      assert PreStopped(order[i..], world, elapsed, timeout) == Pass([], elapsed);
    }
  }

  /** The loop of preStopServices. */
  method TellInOrder(order: seq<Task>, world: World, timeout: nat) returns (told: seq<Told>, elapsed: nat)
    ensures Pass(told, elapsed) == PreStopped(order, world, 0, timeout)
  {
    told, elapsed := [], 0;
    ghost var whole := PreStopped(order, world, 0, timeout);
    assert order[0..] == order;
    var i := 0;
    while i < |order| && elapsed < timeout
      invariant Telling(whole, order, i, told, world, elapsed, timeout)
    {
      TellingStep(whole, order, i, told, world, elapsed, timeout);
      var task := order[i];
      told := told + [Told(task, elapsed)];
      if task.name !in world.refuses {
        elapsed := elapsed + IdleAwaited(world, task.name, timeout - elapsed);
      }
      i := i + 1;
    }
    TellingStep(whole, order, i, told, world, elapsed, timeout);
  }

  method PreStopServices(tasks: Tasks, world: World, timeout: nat) returns (told: seq<Told>, elapsed: nat)
    ensures exists sorted :: IsStartOrder(tasks, sorted)
    ensures forall sorted :: IsStartOrder(tasks, sorted) ==>
              Pass(told, elapsed) == PreStopped(Reversed(Topological(sorted)), world, 0, timeout)
  {
    var order := OrderServicesForStop(tasks);
    told, elapsed := TellInOrder(order, world, timeout);
  }

  /** gracefulShutdown: how long it lasts, and whom it tells to stop. */
  method GracefulShutdown(tasks: Tasks, world: World, taskTimeout: int) returns (told: seq<Told>, elapsed: nat)
    ensures elapsed <= ShutdownBudget(taskTimeout)
    ensures forall sorted :: IsStartOrder(tasks, sorted) ==>
              var pass := PreStopped(Reversed(Topological(sorted)), world, 0, EffectiveTaskTimeout(taskTimeout));
              told == pass.told && elapsed == Duration(pass, world, taskTimeout)
  {
    var timeout := EffectiveTaskTimeout(taskTimeout);
    elapsed := Awaited(world.input, INPUT_DRAIN_TIMEOUT);
    var stopping;
    told, stopping := PreStopServices(tasks, world, timeout);
    ghost var sorted :| IsStartOrder(tasks, sorted);
    PassInTime(Reversed(Topological(sorted)), world, 0, timeout);
    elapsed := elapsed + stopping + Awaited(world.drain, timeout + DRAIN_KILL_MARGIN);
  }

  function Duration(pass: Pass, world: World, taskTimeout: int): nat {
    Awaited(world.input, INPUT_DRAIN_TIMEOUT) + pass.elapsed
      + Awaited(world.drain, EffectiveTaskTimeout(taskTimeout) + DRAIN_KILL_MARGIN)
  }

  function TasksOf(told: seq<Told>): (tasks: seq<Task>)
    ensures |tasks| == |told|
    ensures forall i :: 0 <= i < |told| ==> tasks[i] == told[i].task
  {
    seq(|told|, i requires 0 <= i < |told| => told[i].task)
  }

  /** The services told to stop are the first ones of the order, and the pass ends in time. */
  lemma {:induction false} PassInTime(order: seq<Task>, world: World, elapsed: nat, timeout: nat)
    requires elapsed <= timeout
    ensures PreStopped(order, world, elapsed, timeout).elapsed <= timeout
    ensures TasksOf(PreStopped(order, world, elapsed, timeout).told) <= order
  {
    if order != [] && elapsed < timeout {
      PassInTime(order[1..], world, elapsed + Spent(world, order[0].name, timeout - elapsed), timeout);
    }
  }

  /** The budget is never exceeded, and is met when a service that heeds nothing must be waited for. */
  lemma BudgetIsTight(order: seq<Task>, world: World, taskTimeout: int)
    ensures var pass := PreStopped(order, world, 0, EffectiveTaskTimeout(taskTimeout));
            && Duration(pass, world, taskTimeout) <= ShutdownBudget(taskTimeout)
            && (order != [] && world == World({}, map[], None, None) ==>
                  Duration(pass, world, taskTimeout) == ShutdownBudget(taskTimeout))
  {
    var timeout := EffectiveTaskTimeout(taskTimeout);
    PassInTime(order, world, 0, timeout);
    if order != [] && world == World({}, map[], None, None) {
      assert PreStopped(order[1..], world, timeout, timeout) == Pass([], timeout);
    }
  }

  /** One service is out of the way of another: it was idle before that one was told, or refused to stop. */
  predicate LetGo(world: World, before: Told, next: Told) {
    var name := before.task.name;
    name in world.refuses || (name in world.idleAfter && before.at + world.idleAfter[name] <= next.at)
  }

  ghost predicate OneByOne(world: World, told: seq<Told>) {
    forall i, j :: 0 <= i < j < |told| ==> LetGo(world, told[i], told[j])
  }

  lemma {:induction false} ToldFrom(order: seq<Task>, world: World, elapsed: nat, timeout: nat)
    requires elapsed <= timeout
    ensures var told := PreStopped(order, world, elapsed, timeout).told;
            (told != [] ==> elapsed < timeout) && forall t :: t in told ==> elapsed <= t.at
  {
    if order != [] && elapsed < timeout {
      ToldFrom(order[1..], world, elapsed + Spent(world, order[0].name, timeout - elapsed), timeout);
    }
  }

  /** Every service told was idle, or had refused, before any later one was told. */
  lemma {:induction false} OneAtATime(order: seq<Task>, world: World, elapsed: nat, timeout: nat)
    requires elapsed <= timeout
    ensures OneByOne(world, PreStopped(order, world, elapsed, timeout).told)
  {
    if order != [] && elapsed < timeout {
      var next := elapsed + Spent(world, order[0].name, timeout - elapsed);
      OneAtATime(order[1..], world, next, timeout);
      ToldFrom(order[1..], world, next, timeout);
      FirstLetsGo(world, Told(order[0], elapsed), PreStopped(order[1..], world, next, timeout).told);
    }
  }

  lemma FirstLetsGo(world: World, first: Told, rest: seq<Told>)
    requires OneByOne(world, rest) && forall t :: t in rest ==> LetGo(world, first, t)
    ensures OneByOne(world, [first] + rest)
  {
  }

  /** Every service is told unless the time is up, and the last one told is waited for. */
  lemma {:induction false} TellsAllInTime(order: seq<Task>, world: World, elapsed: nat, timeout: nat)
    requires elapsed <= timeout
    ensures var pass := PreStopped(order, world, elapsed, timeout);
            && (|pass.told| < |order| ==> pass.elapsed == timeout)
            && (pass.told == [] ==> pass.elapsed == elapsed)
            && (pass.told != [] ==> pass.told[0].at == elapsed && WaitedFor(world, pass.told[|pass.told| - 1], pass.elapsed, timeout))
    ensures var told := PreStopped(order, world, elapsed, timeout).told;
            forall i :: 0 <= i < |told| - 1 ==> WaitedFor(world, told[i], told[i + 1].at, timeout)
  {
    if order != [] && elapsed < timeout {
      var next := elapsed + Spent(world, order[0].name, timeout - elapsed);
      TellsAllInTime(order[1..], world, next, timeout);
      assert WaitedFor(world, Told(order[0], elapsed), next, timeout);
    }
  }

  /**
    The time t at which the pass goes on from a service: at once when it refused,
    at the first look that finds it idle, at most one tick after it is, or else
    when the time is up.
   */
  predicate WaitedFor(world: World, told: Told, t: nat, timeout: nat) {
    var name := told.task.name;
    if name in world.refuses then t == told.at
    else if name in world.idleAfter && told.at + NextTick(world.idleAfter[name]) <= timeout then
      t == told.at + NextTick(world.idleAfter[name])
    else t == timeout
  }

  /** The timeout of each of the two waits is the one configured, 3 s when none is, and the whole takes 8 s more. */
  lemma TimeoutIsAsConfigured(order: seq<Task>, taskTimeout: int)
    requires order != []
    ensures var timeout := if taskTimeout > 0 then taskTimeout else 3000;
            && PreStopped(order, World({}, map[], None, None), 0, EffectiveTaskTimeout(taskTimeout)).elapsed == timeout
            && ShutdownBudget(taskTimeout) == 3000 + timeout + (timeout + 5000)
  {
    TellsAllInTime(order, World({}, map[], None, None), 0, EffectiveTaskTimeout(taskTimeout));
  }

  /** The input layer and the bulk drain are each waited for until they are done, or for as long as they may take. */
  lemma WaitsNoLonger(pass: Pass, world: World, taskTimeout: int)
    ensures var timeout := if taskTimeout > 0 then taskTimeout else 3000;
            Duration(pass, world, taskTimeout) == pass.elapsed
              + (if world.input.Some? && world.input.value <= 3000 then world.input.value else 3000)
              + (if world.drain.Some? && world.drain.value <= timeout + 5000 then world.drain.value else timeout + 5000)
  {
  }

  /** What the stop pass tells, for tasks whose priority order is sorted. */
  function ToldOf(sorted: seq<Task>, world: World, timeout: nat): seq<Told> {
    PreStopped(Reversed(Topological(sorted)), world, 0, timeout).told
  }

  /**
    Without a dependency cycle, whenever a service is told to stop, all that
    depend on it were told before, and each was idle by then or had refused.
   */
  lemma DependentsStopFirst(tasks: Tasks, sorted: seq<Task>, world: World, timeout: nat, s: Task, b: nat)
    requires IsStartOrder(tasks, sorted) && Acyclic(Services(tasks)) && s in sorted
    requires b < |ToldOf(sorted, world, timeout)| && ToldOf(sorted, world, timeout)[b].task.name in s.dependsOn
    ensures exists a :: 0 <= a < b && ToldOf(sorted, world, timeout)[a].task == s
                        && LetGo(world, ToldOf(sorted, world, timeout)[a], ToldOf(sorted, world, timeout)[b])
  {
    var stop, told := Reversed(Topological(sorted)), ToldOf(sorted, world, timeout);
    PassInTime(stop, world, 0, timeout);
    OneAtATime(stop, world, 0, timeout);
    StopOrder(tasks, sorted);
    var d := told[b].task;
    assert TasksOf(told)[b] == d && stop[b] == d;
    assert d in stop && d.name in Services(tasks);
    var a :| 0 <= a < |stop| && stop[a] == s;
    assert Follows(stop, d.name, a);
    var c :| a < c < |stop| && stop[c].name == d.name;
    OncePerName(tasks, sorted, b, c);
    assert TasksOf(told)[a] == s;
  }

  /** Each service is in the stop order once. */
  lemma OncePerName(tasks: Tasks, sorted: seq<Task>, b: nat, c: nat)
    requires IsStartOrder(tasks, sorted)
    requires var stop := Reversed(Topological(sorted)); b < |stop| && c < |stop| && stop[b].name == stop[c].name
    ensures b == c
  {
    var order := Topological(sorted);
    TopologicalIsPermutation(tasks, sorted);
    assert order[|order| - 1 - b] in order && order[|order| - 1 - c] in order;
  }
}
