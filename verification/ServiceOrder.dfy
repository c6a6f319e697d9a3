/**
  apps/runwisp/cmd/runwisp/daemon_services.go: the order in which services are
  started, and stopped, from their depends_on lists.
 */
module ServiceOrder {

  datatype Task = Task(name: string, priority: int, service: bool, dependsOn: seq<string>)

  /** The daemon's tasks, by name. */
  type Tasks = tasks: map<string, Task> | forall name :: name in tasks ==> tasks[name].name == name witness map[]

  // ----- Priority, then name -----

  /** Byte by byte, a comes before b. */
  predicate NameBefore(a: string, b: string) {
    b != [] && (a == [] || a[0] < b[0] || (a[0] == b[0] && NameBefore(a[1..], b[1..])))
  }

  predicate Before(a: Task, b: Task) {
    a.priority < b.priority || (a.priority == b.priority && NameBefore(a.name, b.name))
  }

  lemma {:induction false} NamesTransitive(a: string, b: string, c: string)
    requires NameBefore(a, b) && NameBefore(b, c)
    ensures NameBefore(a, c)
  {
    if a != [] && a[0] == b[0] == c[0] {
      NamesTransitive(a[1..], b[1..], c[1..]);
    }
  }

  lemma {:induction false} NamesTotal(a: string, b: string)
    ensures a == b || NameBefore(a, b) || NameBefore(b, a)
    ensures !(NameBefore(a, b) && NameBefore(b, a))
  {
    if a != [] && b != [] && a[0] == b[0] {
      NamesTotal(a[1..], b[1..]);
      assert a == [a[0]] + a[1..] && b == [b[0]] + b[1..];
    }
  }

  lemma BeforeTransitive(a: Task, b: Task, c: Task)
    requires Before(a, b) && Before(b, c)
    ensures Before(a, c)
  {
    if a.priority == b.priority == c.priority {
      NamesTransitive(a.name, b.name, c.name);
    }
  }

  lemma BeforeTotal(a: Task, b: Task)
    ensures a.name == b.name || Before(a, b) || Before(b, a)
    ensures !(Before(a, b) && Before(b, a))
  {
    NamesTotal(a.name, b.name);
  }

  predicate Ordered(ts: seq<Task>) {
    forall i, j :: 0 <= i < j < |ts| ==> Before(ts[i], ts[j])
  }

  /** The services of tasks, each once, by priority and then name. */
  ghost predicate IsStartOrder(tasks: Tasks, order: seq<Task>) {
    && Ordered(order)
    && forall t :: t in order <==> t.name in tasks && tasks[t.name] == t && t.service
  }

  ghost predicate SameTasks(a: seq<Task>, b: seq<Task>) {
    forall t :: t in a <==> t in b
  }

  /** A set of tasks has one order: whatever order a map is ranged over in, the result is the same. */
  lemma {:induction false} OneOrder(a: seq<Task>, b: seq<Task>)
    requires Ordered(a) && Ordered(b) && SameTasks(a, b)
    ensures a == b
    decreases |a|
  {
    FirstIsIn(a);
    FirstIsIn(b);
    if a != [] {
      SameFirst(a, b);
      NotAgain(a);
      NotAgain(b);
      assert a == [a[0]] + a[1..] && b == [b[0]] + b[1..];
      assert forall t :: t in a <==> t == a[0] || t in a[1..];
      assert forall t :: t in b <==> t == b[0] || t in b[1..];
      OneOrder(a[1..], b[1..]);
    }
  }

  function First(ts: seq<Task>): Task {
    if ts == [] then Task("", 0, false, []) else ts[0]
  }

  lemma FirstIsIn(ts: seq<Task>)
    ensures ts != [] ==> First(ts) in ts
  {
  }

  lemma NotAgain(a: seq<Task>)
    requires a != [] && Ordered(a)
    ensures a[0] !in a[1..]
  {
    BeforeTotal(a[0], a[0]);
  }

  lemma SameFirst(a: seq<Task>, b: seq<Task>)
    requires Ordered(a) && Ordered(b) && a != [] && b != [] && SameTasks(a, b)
    ensures a[0] == b[0]
  {
    assert a[0] in b && b[0] in a;
    BeforeTotal(a[0], b[0]);
  }

  /** slices.SortStableFunc on tasks of distinct names. */
  method Sort(ts: seq<Task>) returns (sorted: seq<Task>)
    requires forall i, j :: 0 <= i < j < |ts| ==> ts[i].name != ts[j].name
    ensures Ordered(sorted) && SameTasks(sorted, ts)
  {
    sorted := [];
    for i := 0 to |ts|
      invariant Ordered(sorted) && SameTasks(sorted, ts[..i])
    {
      assert ts[..i + 1] == ts[..i] + [ts[i]];
      sorted := Insert(sorted, ts[i]);
    }
    assert ts[..|ts|] == ts;
  }

  method Insert(sorted: seq<Task>, t: Task) returns (more: seq<Task>)
    requires Ordered(sorted) && forall s :: s in sorted ==> s.name != t.name
    ensures Ordered(more) && SameTasks(more, sorted + [t])
  {
    var k := |sorted|;
    while 0 < k && Before(t, sorted[k - 1])
      invariant 0 <= k <= |sorted|
      invariant forall i :: k <= i < |sorted| ==> Before(t, sorted[i])
    {
      k := k - 1;
    }
    more := sorted[..k] + [t] + sorted[k..];
    forall i | 0 <= i < k ensures Before(sorted[i], t) {
      BeforeTotal(sorted[k - 1], t);
      if i < k - 1 {
        BeforeTransitive(sorted[i], sorted[k - 1], t);
      }
    }
  }

  /** Ranges over the map in any order. */
  method OrderServicesForStart(tasks: Tasks) returns (order: seq<Task>)
    ensures IsStartOrder(tasks, order)
  {
    var services: seq<Task> := [];
    var left := tasks.Keys;
    while left != {}
      invariant left <= tasks.Keys
      invariant forall t :: t in services <==> t.name in tasks.Keys - left && t == tasks[t.name] && t.service
      invariant forall i, j :: 0 <= i < j < |services| ==> services[i].name != services[j].name
      decreases left
    {
      var name :| name in left;
      if tasks[name].service {
        assert forall i :: 0 <= i < |services| ==> services[i] in services;
        services := services + [tasks[name]];
      }
      left := left - {name};
    }
    order := Sort(services);
  }

  // ----- Dependencies first -----

  /** What the walk has visited, and the services it has put in order. */
  datatype Walk = Walk(visited: set<string>, ordered: seq<Task>)

  function ByName(roots: seq<Task>): (byName: map<string, Task>)
    ensures forall name :: name in byName ==> byName[name].name == name && byName[name] in roots
    ensures forall t :: t in roots ==> t.name in byName
  {
    if roots == [] then map[]
    else
      var last := roots[|roots| - 1];
      ByName(roots[..|roots| - 1])[last.name := last]
  }

  function Visited(byName: map<string, Task>, name: string, walk: Walk): (next: Walk)
    requires name in byName
    ensures walk.visited <= next.visited
    decreases byName.Keys - walk.visited, 0
  {
    if name in walk.visited then walk
    else
      var marked := walk.(visited := walk.visited + {name});
      assert byName.Keys - marked.visited < byName.Keys - walk.visited by {
        assert name in byName.Keys - walk.visited;
      }
      var below := DepsVisited(byName, byName[name].dependsOn, marked);
      below.(ordered := below.ordered + [byName[name]])
  }

  function DepsVisited(byName: map<string, Task>, deps: seq<string>, walk: Walk): (next: Walk)
    ensures walk.visited <= next.visited
    decreases byName.Keys - walk.visited, |deps|
  {
    if deps == [] then walk
    else
      var next := if deps[0] in byName then Visited(byName, deps[0], walk) else walk;
      DepsVisited(byName, deps[1..], next)
  }

  function RootsVisited(byName: map<string, Task>, roots: seq<Task>): (walk: Walk)
    requires forall t :: t in roots ==> t.name in byName
  {
    if roots == [] then Walk({}, [])
    else Visited(byName, roots[|roots| - 1].name, RootsVisited(byName, roots[..|roots| - 1]))
  }

  /** The start order of services already in priority order. */
  function Topological(roots: seq<Task>): seq<Task> {
    RootsVisited(ByName(roots), roots).ordered
  }

  /** The recursive closure of topoStartOrder and the variables it changes. */
  class TopoWalk {
    const byName: map<string, Task>
    var visited: set<string>
    var ordered: seq<Task>

    ghost function View(): Walk
      reads this
    {
      Walk(visited, ordered)
    }

    constructor (byName: map<string, Task>)
      ensures this.byName == byName && View() == Walk({}, [])
    {
      this.byName := byName;
      visited, ordered := {}, [];
    }

    method Visit(s: Task)
      requires s.name in byName && byName[s.name] == s
      requires forall name :: name in byName ==> byName[name].name == name
      modifies this
      ensures View() == Visited(byName, s.name, old(View()))
      decreases byName.Keys - visited
    {
      if s.name in visited {
        return;
      }
      ghost var before := byName.Keys - visited;
      assert s.name in before;
      visited := visited + {s.name};
      ghost var marked := View();
      var i := 0;
      while i < |s.dependsOn|
        invariant 0 <= i <= |s.dependsOn|
        invariant byName.Keys - visited < before
        invariant DepsVisited(byName, s.dependsOn[i..], View()) == DepsVisited(byName, s.dependsOn, marked)
      {
        var dep := s.dependsOn[i];
        assert s.dependsOn[i..][1..] == s.dependsOn[i + 1..];
        if dep in byName {
          Visit(byName[dep]);
        }
        i := i + 1;
      }
      ordered := ordered + [s];
    }
  }

  /** The map names a root's own task, as names are distinct. */
  lemma {:induction false} ByNameFinds(roots: seq<Task>)
    requires forall i, j :: 0 <= i < j < |roots| ==> roots[i].name != roots[j].name
    ensures forall t :: t in roots ==> ByName(roots)[t.name] == t
  {
    if roots != [] {
      ByNameFinds(roots[..|roots| - 1]);
    }
  }

  lemma NamesAreDistinct(tasks: Tasks, roots: seq<Task>)
    requires IsStartOrder(tasks, roots)
    ensures forall i, j :: 0 <= i < j < |roots| ==> roots[i].name != roots[j].name
  {
    forall i, j | 0 <= i < j < |roots| ensures roots[i].name != roots[j].name {
      assert roots[i] in roots && roots[j] in roots;
      BeforeTotal(roots[i], roots[j]);
    }
  }

  method MapByName(roots: seq<Task>) returns (byName: map<string, Task>)
    ensures byName == ByName(roots)
  {
    byName := map[];
    for i := 0 to |roots|
      invariant byName == ByName(roots[..i])
    {
      assert roots[..i + 1][..i] == roots[..i];
      byName := byName[roots[i].name := roots[i]];
    }
    assert roots[..|roots|] == roots;
  }

  method WalkRoots(byName: map<string, Task>, roots: seq<Task>) returns (order: seq<Task>)
    requires byName == ByName(roots) && forall t :: t in roots ==> byName[t.name] == t
    ensures order == Topological(roots)
  {
    var walk := new TopoWalk(byName);
    for i := 0 to |roots|
      invariant walk.View() == RootsVisited(byName, roots[..i])
    {
      assert roots[..i + 1][..i] == roots[..i];
      walk.Visit(roots[i]);
    }
    assert roots[..|roots|] == roots;
    order := walk.ordered;
  }

  /** The result is that of the services' one priority order, whatever order the map is ranged over in. */
  method TopoStartOrder(tasks: Tasks) returns (order: seq<Task>)
    ensures exists sorted :: IsStartOrder(tasks, sorted)
    ensures forall sorted :: IsStartOrder(tasks, sorted) ==> order == Topological(sorted)
  {
    var roots := OrderServicesForStart(tasks);
    NamesAreDistinct(tasks, roots);
    ByNameFinds(roots);
    var byName := MapByName(roots);
    order := WalkRoots(byName, roots);
    forall sorted | IsStartOrder(tasks, sorted) ensures order == Topological(sorted) {
      assert SameTasks(roots, sorted);
      OneOrder(roots, sorted);
    }
  }

  /** slices.Reverse */
  function Reversed(ts: seq<Task>): (r: seq<Task>)
    ensures |r| == |ts|
    ensures forall i :: 0 <= i < |ts| ==> r[i] == ts[|ts| - 1 - i]
  {
    seq(|ts|, i requires 0 <= i < |ts| => ts[|ts| - 1 - i])
  }

  method OrderServicesForStop(tasks: Tasks) returns (order: seq<Task>)
    ensures exists sorted :: IsStartOrder(tasks, sorted)
    ensures forall sorted :: IsStartOrder(tasks, sorted) ==> order == Reversed(Topological(sorted))
  {
    var stop := TopoStartOrder(tasks);
    order := Reversed(stop);
  }

  // ----- What the walk keeps -----

  function NamesOf(ts: seq<Task>): set<string> {
    set i | 0 <= i < |ts| :: ts[i].name
  }

  /** Each name once, each task the one of its name. */
  ghost predicate EachOnce(byName: map<string, Task>, ts: seq<Task>) {
    && (forall i :: 0 <= i < |ts| ==> ts[i].name in byName && byName[ts[i].name] == ts[i])
    && (forall i, j :: 0 <= i < j < |ts| ==> ts[i].name != ts[j].name)
  }

  /** A walk in progress: gray is what was visited and not put in order yet. */
  ghost predicate WalkSound(byName: map<string, Task>, walk: Walk, gray: set<string>) {
    && EachOnce(byName, walk.ordered)
    && NamesOf(walk.ordered) !! gray
    && walk.visited == NamesOf(walk.ordered) + gray
    && walk.visited <= byName.Keys
  }

  lemma {:induction false} VisitKeeps(byName: map<string, Task>, name: string, walk: Walk, gray: set<string>)
    requires forall n :: n in byName ==> byName[n].name == n
    requires name in byName && WalkSound(byName, walk, gray)
    ensures WalkSound(byName, Visited(byName, name, walk), gray)
    ensures name in Visited(byName, name, walk).visited
    ensures walk.ordered <= Visited(byName, name, walk).ordered
    decreases byName.Keys - walk.visited, 0
  {
    if name !in walk.visited {
      var marked := walk.(visited := walk.visited + {name});
      assert name in byName.Keys - walk.visited;
      DepsKeep(byName, byName[name].dependsOn, marked, gray + {name});
      var below := DepsVisited(byName, byName[name].dependsOn, marked);
      AppendKeeps(byName, below, gray, name);
    }
  }

  lemma AppendKeeps(byName: map<string, Task>, below: Walk, gray: set<string>, name: string)
    requires name in byName && byName[name].name == name && name !in gray
    requires WalkSound(byName, below, gray + {name})
    ensures WalkSound(byName, below.(ordered := below.ordered + [byName[name]]), gray)
  {
    var after := below.ordered + [byName[name]];
    assert NamesOf(after) == NamesOf(below.ordered) + {name} by {
      assert after[|below.ordered|].name == name;
      forall n | n in NamesOf(below.ordered) ensures n in NamesOf(after) {
        var i :| 0 <= i < |below.ordered| && below.ordered[i].name == n;
        assert after[i].name == n;
      }
    }
    assert forall i :: 0 <= i < |below.ordered| ==> below.ordered[i].name in NamesOf(below.ordered);
  }

  lemma {:induction false} DepsKeep(byName: map<string, Task>, deps: seq<string>, walk: Walk, gray: set<string>)
    requires forall n :: n in byName ==> byName[n].name == n
    requires WalkSound(byName, walk, gray)
    ensures WalkSound(byName, DepsVisited(byName, deps, walk), gray)
    ensures forall d :: d in deps && d in byName ==> d in DepsVisited(byName, deps, walk).visited
    ensures walk.ordered <= DepsVisited(byName, deps, walk).ordered
    decreases byName.Keys - walk.visited, |deps|
  {
    if deps != [] {
      if deps[0] in byName {
        VisitKeeps(byName, deps[0], walk, gray);
      }
      var next := if deps[0] in byName then Visited(byName, deps[0], walk) else walk;
      DepsKeep(byName, deps[1..], next, gray);
    }
  }

  lemma {:induction false} RootsKeep(byName: map<string, Task>, roots: seq<Task>)
    requires forall n :: n in byName ==> byName[n].name == n
    requires forall t :: t in roots ==> t.name in byName
    ensures WalkSound(byName, RootsVisited(byName, roots), {})
    ensures forall t :: t in roots ==> t.name in RootsVisited(byName, roots).visited
  {
    if roots != [] {
      var before, last := roots[..|roots| - 1], roots[|roots| - 1];
      RootsKeep(byName, before);
      VisitKeeps(byName, last.name, RootsVisited(byName, before), {});
    }
  }

  /** Every service exactly once, cycles or not. */
  lemma TopologicalIsPermutation(tasks: Tasks, roots: seq<Task>)
    requires IsStartOrder(tasks, roots)
    ensures var order := Topological(roots);
            && SameTasks(order, roots)
            && (forall i, j :: 0 <= i < j < |order| ==> order[i] != order[j])
            && |order| == |roots|
  {
    var order, byName := Topological(roots), ByName(roots);
    NamesAreDistinct(tasks, roots);
    ByNameFinds(roots);
    RootsKeep(byName, roots);
    forall t | t in roots ensures t in order {
      assert t.name in NamesOf(order);
    }
    DistinctSameSize(order, roots);
  }

  function TaskSet(ts: seq<Task>): set<Task> {
    set i | 0 <= i < |ts| :: ts[i]
  }

  lemma {:induction false} DistinctSize(ts: seq<Task>)
    requires forall i, j :: 0 <= i < j < |ts| ==> ts[i] != ts[j]
    ensures |TaskSet(ts)| == |ts|
  {
    if ts != [] {
      var before, last := ts[..|ts| - 1], ts[|ts| - 1];
      DistinctSize(before);
      assert TaskSet(ts) == TaskSet(before) + {last};
    }
  }

  lemma DistinctSameSize(a: seq<Task>, b: seq<Task>)
    requires forall i, j :: 0 <= i < j < |a| ==> a[i] != a[j]
    requires forall i, j :: 0 <= i < j < |b| ==> b[i] != b[j]
    requires SameTasks(a, b)
    ensures |a| == |b|
  {
    DistinctSize(a);
    DistinctSize(b);
    assert forall t :: t in TaskSet(a) <==> t in a;
    assert forall t :: t in TaskSet(b) <==> t in b;
    assert TaskSet(a) == TaskSet(b);
  }
}
