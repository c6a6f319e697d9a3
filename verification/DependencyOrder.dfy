/**
  apps/runwisp/cmd/runwisp/daemon_services.go: what the depth-first order is
  worth. It puts dependencies first exactly when depends_on has no cycle, and
  the order used for stopping is then dependents first.
 */
module DependencyOrder {
  import opened ServiceOrder

  /** The services among the daemon's tasks, by name. */
  function Services(tasks: Tasks): map<string, Task> {
    map name | name in tasks && tasks[name].service :: tasks[name]
  }

  // ----- Chains of dependencies -----

  /** Each service of a chain depends on the next one. */
  ghost predicate Chain(services: map<string, Task>, p: seq<string>) {
    && (forall i :: 0 <= i < |p| ==> p[i] in services)
    && (forall i :: 0 <= i < |p| - 1 ==> p[i + 1] in services[p[i]].dependsOn)
  }

  ghost predicate Acyclic(services: map<string, Task>) {
    forall p :: Chain(services, p) && |p| >= 2 ==> p[0] != p[|p| - 1]
  }

  ghost predicate Precedes(ts: seq<Task>, name: string, i: nat) {
    exists j :: 0 <= j < i && j < |ts| && ts[j].name == name
  }

  /** Each service comes after all the services it depends on. */
  ghost predicate DependenciesFirst(services: map<string, Task>, ts: seq<Task>) {
    forall i, d :: 0 <= i < |ts| && d in ts[i].dependsOn && d in services ==> Precedes(ts, d, i)
  }

  ghost predicate Follows(ts: seq<Task>, name: string, i: nat) {
    exists j :: i < j < |ts| && ts[j].name == name
  }

  /** Each service comes before all the services it depends on. */
  ghost predicate DependentsFirst(services: map<string, Task>, ts: seq<Task>) {
    forall i, d :: 0 <= i < |ts| && d in ts[i].dependsOn && d in services ==> Follows(ts, d, i)
  }

  // ----- Without a cycle, dependencies come first -----

  ghost function Names(p: seq<string>): set<string> {
    set i | 0 <= i < |p| :: p[i]
  }

  lemma NamesPlus(p: seq<string>, name: string)
    ensures Names(p + [name]) == Names(p) + {name}
  {
    var q := p + [name];
    assert q[|p|] == name;
    forall n | n in Names(p) ensures n in Names(q) {
      var i :| 0 <= i < |p| && p[i] == n;
      assert q[i] == n;
    }
  }

  lemma TailIsChain(services: map<string, Task>, p: seq<string>, i: nat)
    requires Chain(services, p) && i < |p|
    ensures Chain(services, p[i..])
  {
    var q := p[i..];
    forall k | 0 <= k < |q| - 1 ensures q[k + 1] in services[q[k]].dependsOn {
      assert p[i + k + 1] in services[p[i + k]].dependsOn;
    }
  }

  /** A dependency still being walked would close a cycle. */
  lemma NotGray(services: map<string, Task>, path: seq<string>, name: string)
    requires Acyclic(services) && Chain(services, path + [name])
    ensures name !in Names(path)
  {
    if name in Names(path) {
      var i :| 0 <= i < |path| && path[i] == name;
      assert (path + [name])[i] == name;
      TailIsChain(services, path + [name], i);
    }
  }

  lemma OrderedPlus(services: map<string, Task>, ts: seq<Task>, t: Task)
    requires DependenciesFirst(services, ts)
    requires forall d :: d in t.dependsOn && d in services ==> d in NamesOf(ts)
    ensures DependenciesFirst(services, ts + [t])
  {
    var after := ts + [t];
    forall i, d | 0 <= i < |after| && d in after[i].dependsOn && d in services ensures Precedes(after, d, i) {
      if i < |ts| {
        assert Precedes(ts, d, i);
        var j :| 0 <= j < i && ts[j].name == d;
        assert after[j].name == d;
      } else {
        assert d in NamesOf(ts);
        var j :| 0 <= j < |ts| && ts[j].name == d;
        assert after[j].name == d;
      }
    }
  }

  lemma {:induction false} VisitSorts(services: map<string, Task>, name: string, walk: Walk, path: seq<string>)
    requires Acyclic(services) && forall n :: n in services ==> services[n].name == n
    requires name in services && Chain(services, path + [name])
    requires WalkSound(services, walk, Names(path)) && DependenciesFirst(services, walk.ordered)
    ensures DependenciesFirst(services, Visited(services, name, walk).ordered)
    ensures name in NamesOf(Visited(services, name, walk).ordered)
    decreases services.Keys - walk.visited, 0
  {
    NotGray(services, path, name);
    if name !in walk.visited {
      var marked := walk.(visited := walk.visited + {name});
      assert name in services.Keys - walk.visited;
      var deps := services[name].dependsOn;
      NamesPlus(path, name);
      DepsSort(services, deps, marked, path + [name]);
      var below := DepsVisited(services, deps, marked);
      OrderedPlus(services, below.ordered, services[name]);
      assert (below.ordered + [services[name]])[|below.ordered|].name == name;
    }
  }

  lemma ChainPlus(services: map<string, Task>, path: seq<string>, name: string)
    requires Chain(services, path) && name in services
    requires path != [] && name in services[path[|path| - 1]].dependsOn
    ensures Chain(services, path + [name])
  {
  }

  lemma StillThere(before: seq<Task>, after: seq<Task>, name: string)
    requires before <= after && name in NamesOf(before)
    ensures name in NamesOf(after)
  {
    var i :| 0 <= i < |before| && before[i].name == name;
    assert after[i].name == name;
  }

  lemma {:induction false} DepsSort(services: map<string, Task>, deps: seq<string>, walk: Walk, path: seq<string>)
    requires Acyclic(services) && forall n :: n in services ==> services[n].name == n
    requires path != [] && Chain(services, path)
    requires forall d :: d in deps ==> d in services[path[|path| - 1]].dependsOn
    requires WalkSound(services, walk, Names(path)) && DependenciesFirst(services, walk.ordered)
    ensures DependenciesFirst(services, DepsVisited(services, deps, walk).ordered)
    ensures forall d :: d in deps && d in services ==> d in NamesOf(DepsVisited(services, deps, walk).ordered)
    decreases services.Keys - walk.visited, |deps|
  {
    if deps != [] {
      assert deps[0] in deps && forall d :: d in deps[1..] ==> d in deps;
      var next := if deps[0] in services then Visited(services, deps[0], walk) else walk;
      if deps[0] in services {
        ChainPlus(services, path, deps[0]);
        VisitSorts(services, deps[0], walk, path);
        VisitKeeps(services, deps[0], walk, Names(path));
      }
      DepsSort(services, deps[1..], next, path);
      DepsKeep(services, deps[1..], next, Names(path));
      if deps[0] in services {
        StillThere(next.ordered, DepsVisited(services, deps, walk).ordered, deps[0]);
      }
    }
  }

  lemma {:induction false} RootsSort(services: map<string, Task>, roots: seq<Task>)
    requires Acyclic(services) && forall n :: n in services ==> services[n].name == n
    requires forall t :: t in roots ==> t.name in services
    ensures DependenciesFirst(services, RootsVisited(services, roots).ordered)
  {
    if roots != [] {
      var before, name := roots[..|roots| - 1], roots[|roots| - 1].name;
      RootsSort(services, before);
      RootsKeep(services, before);
      assert Names([]) == {};
      assert Chain(services, [] + [name]);
      VisitSorts(services, name, RootsVisited(services, before), []);
    }
  }

  // ----- Dependencies first, hence no cycle -----

  ghost function Place(ts: seq<Task>, name: string): (i: nat)
    requires name in NamesOf(ts)
    ensures i < |ts| && ts[i].name == name
  {
    var i :| 0 <= i < |ts| && ts[i].name == name; i
  }

  /** Along a chain the places only go down. */
  lemma {:induction false} ChainDescends(services: map<string, Task>, ts: seq<Task>, p: seq<string>, n: nat)
    requires EachOnce(services, ts) && DependenciesFirst(services, ts)
    requires forall name :: name in services ==> name in NamesOf(ts)
    requires Chain(services, p) && n < |p|
    ensures Place(ts, p[n]) + n <= Place(ts, p[0])
  {
    if n > 0 {
      ChainDescends(services, ts, p, n - 1);
      var i := Place(ts, p[n - 1]);
      assert p[n - 1 + 1] in services[p[n - 1]].dependsOn;
      assert ts[i] == services[p[n - 1]];
      assert Precedes(ts, p[n], i);
      var j :| 0 <= j < i && j < |ts| && ts[j].name == p[n];
      assert Place(ts, p[n]) == j;
    }
  }

  lemma SortedIsAcyclic(services: map<string, Task>, ts: seq<Task>)
    requires EachOnce(services, ts) && DependenciesFirst(services, ts)
    requires forall name :: name in services ==> name in NamesOf(ts)
    ensures Acyclic(services)
  {
    forall p | Chain(services, p) && |p| >= 2 ensures p[0] != p[|p| - 1] {
      ChainDescends(services, ts, p, |p| - 1);
    }
  }

  // ----- The start order and the stop order -----

  lemma ServicesByName(tasks: Tasks, roots: seq<Task>)
    requires IsStartOrder(tasks, roots)
    ensures ByName(roots) == Services(tasks)
  {
    var byName, services := ByName(roots), Services(tasks);
    NamesAreDistinct(tasks, roots);
    ByNameFinds(roots);
    forall name | name in services ensures name in byName && byName[name] == services[name] {
      assert services[name] in roots;
    }
  }

  /** The start order puts dependencies first if, and only if, no service depends on itself through others. */
  lemma DependenciesFirstExactlyWhenAcyclic(tasks: Tasks, roots: seq<Task>)
    requires IsStartOrder(tasks, roots)
    ensures DependenciesFirst(Services(tasks), Topological(roots)) <==> Acyclic(Services(tasks))
  {
    var services := Services(tasks);
    ServicesByName(tasks, roots);
    if Acyclic(services) {
      RootsSort(services, roots);
    }
    if DependenciesFirst(services, Topological(roots)) {
      RootsKeep(services, roots);
      forall name | name in services ensures name in NamesOf(Topological(roots)) {
        assert services[name] in roots;
      }
      SortedIsAcyclic(services, Topological(roots));
    }
  }

  lemma ReversalSwaps(services: map<string, Task>, ts: seq<Task>)
    ensures DependentsFirst(services, Reversed(ts)) <==> DependenciesFirst(services, ts)
  {
    var r := Reversed(ts);
    if DependenciesFirst(services, ts) {
      forall i, d | 0 <= i < |r| && d in r[i].dependsOn && d in services ensures Follows(r, d, i) {
        assert Precedes(ts, d, |ts| - 1 - i);
        var j :| 0 <= j < |ts| - 1 - i && j < |ts| && ts[j].name == d;
        assert r[|ts| - 1 - j].name == d;
      }
    }
    if DependentsFirst(services, r) {
      forall i, d | 0 <= i < |ts| && d in ts[i].dependsOn && d in services ensures Precedes(ts, d, i) {
        assert r[|ts| - 1 - i] == ts[i];
        assert Follows(r, d, |ts| - 1 - i);
        var j :| |ts| - 1 - i < j < |r| && r[j].name == d;
        assert ts[|ts| - 1 - j].name == d;
      }
    }
  }

  /** The stop order names every service once, and dependents first exactly when there is no cycle. */
  lemma StopOrder(tasks: Tasks, roots: seq<Task>)
    requires IsStartOrder(tasks, roots)
    ensures var stop := Reversed(Topological(roots));
            && (DependentsFirst(Services(tasks), stop) <==> Acyclic(Services(tasks)))
            && (forall t :: t in stop <==> t in roots)
            && |stop| == |roots|
  {
    var order := Topological(roots);
    DependenciesFirstExactlyWhenAcyclic(tasks, roots);
    ReversalSwaps(Services(tasks), order);
    TopologicalIsPermutation(tasks, roots);
    SameWhenReversed(order);
  }

  lemma SameWhenReversed(ts: seq<Task>)
    ensures SameTasks(Reversed(ts), ts)
  {
    forall t | t in ts ensures t in Reversed(ts) {
      var i :| 0 <= i < |ts| && ts[i] == t;
      assert Reversed(ts)[|ts| - 1 - i] == t;
    }
  }
}
