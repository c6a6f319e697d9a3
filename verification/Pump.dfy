/**
  Worker::pump of packages/php/src/Worker.php over all of the worker's runs:
  their messages interleave on one session, and each run's part of them is what
  Relay says of that run alone. A run is known by its place among those started.
 */
module Pump {
  import opened Pieces
  import opened Relay
  import L = Lines
  import C = Characters
  import opened Sequences

  /** A message and the run it belongs to. */
  datatype Entry = Entry(run: nat, message: Message)

  function Tagged(run: nat, ms: seq<Message>): (log: seq<Entry>)
    ensures |log| == |ms|
  {
    if ms == [] then [] else [Entry(run, ms[0])] + Tagged(run, ms[1..])
  }

  /** A run's messages, in the order they were sent. */
  function Of(run: nat, log: seq<Entry>): seq<Message> {
    if log == [] then [] else (if log[0].run == run then [log[0].message] else []) + Of(run, log[1..])
  }

  lemma {:induction false} OfConcat(run: nat, a: seq<Entry>, b: seq<Entry>)
    ensures Of(run, a + b) == Of(run, a) + Of(run, b)
  {
    if a == [] {
      assert a + b == b;
    } else {
      assert (a + b)[0] == a[0] && (a + b)[1..] == a[1..] + b;
      OfConcat(run, a[1..], b);
      Assoc(if a[0].run == run then [a[0].message] else [], Of(run, a[1..]), Of(run, b));
    }
  }

  lemma {:induction false} OfTagged(run: nat, other: nat, ms: seq<Message>)
    ensures Of(run, Tagged(other, ms)) == if run == other then ms else []
  {
    if ms != [] {
      OfTagged(run, other, ms[1..]);
      assert Tagged(other, ms)[1..] == Tagged(other, ms[1..]);
      assert ms == [ms[0]] + ms[1..];
    }
  }

  /** Messages of one run added to the log are added to its part, and to no other. */
  lemma PartOf(log: seq<Entry>, run: nat, more: seq<Message>, other: nat)
    ensures Of(other, log + Tagged(run, more)) == if other == run then Of(run, log) + more else Of(other, log)
  {
    OfConcat(other, log, Tagged(run, more));
    OfTagged(other, run, more);
    assert Of(other, log) + [] == Of(other, log);
  }

  /** What the worker's books say of a run. */
  datatype Seen = Seen(sent: seq<Message>, listed: bool, ended: bool)

  /** A log in which every run's part is what that run sent. */
  ghost predicate Parted(log: seq<Entry>, seen: seq<Seen>) {
    forall run: nat :: Of(run, log) == if run < |seen| then seen[run].sent else []
  }

  lemma PartedBySending(log: seq<Entry>, seen: seq<Seen>, run: nat, more: seq<Message>, now: Seen)
    requires Parted(log, seen) && run < |seen| && now.sent == seen[run].sent + more
    ensures Parted(log + Tagged(run, more), seen[run := now])
  {
    forall other: nat
      ensures Of(other, log + Tagged(run, more))
           == if other == run then now.sent else if other < |seen| then seen[other].sent else []
    {
      PartOf(log, run, more, other);
    }
  }

  /** What the child of a run does around the three statements that look at it. */
  datatype Timing = Timing(before: (Text, Text, bool), between: (Text, Text, bool), after: (Text, Text, bool))

  /** Two runs share no process and no buffer. */
  ghost predicate Separate(a: Run, b: Run) {
    && a != b && a.process != b.process
    && a.stdout != b.stdout && a.stdout != b.stderr && a.stderr != b.stdout && a.stderr != b.stderr
  }

  ghost predicate Apart(all: seq<Run>) {
    forall i, j :: 0 <= i < |all| && 0 <= j < |all| && i != j ==> Separate(all[i], all[j])
  }

  ghost predicate Within(run: Run, repr: set<object>) {
    run in repr && run.process in repr && run.stdout in repr && run.stderr in repr
  }

  ghost predicate Good(run: Run, seen: Seen)
    reads run, run.process, run.stdout, run.stderr
  {
    run.Valid() && seen == Seen(run.sent, run.listed, run.process.ended)
  }

  /** The messages are the runs' own, and no two runs share what they work on. */
  ghost predicate Kept(all: seq<Run>, log: seq<Entry>, seen: seq<Seen>, repr: set<object>) {
    && |seen| == |all| && Parted(log, seen) && Apart(all)
    && forall i :: 0 <= i < |all| ==> Within(all[i], repr)
  }

  lemma KeptByAdding(all: seq<Run>, log: seq<Entry>, seen: seq<Seen>, repr: set<object>,
                     run: Run, now: Seen, wider: set<object>)
    requires Kept(all, log, seen, repr) && repr <= wider && Within(run, wider) && now.sent == []
    requires forall i :: 0 <= i < |all| ==> Separate(all[i], run)
    ensures Kept(all + [run], log, seen + [now], wider)
  {
    var more := all + [run];
    forall i | 0 <= i < |more| ensures Within(more[i], wider) {
      if i < |all| {
        assert Within(all[i], repr);
      }
    }
    forall i, j | 0 <= i < |more| && 0 <= j < |more| && i != j ensures Separate(more[i], more[j]) {
      if i < |all| && j < |all| {
        assert Separate(all[i], all[j]);
      } else if i < |all| {
        assert Separate(all[i], run);
      } else {
        assert Separate(all[j], run);
      }
    }
  }

  lemma KeptByNoting(all: seq<Run>, log: seq<Entry>, seen: seq<Seen>, repr: set<object>,
                     i: nat, now: Seen, next: seq<Entry>)
    requires Kept(all, log, seen, repr) && i < |all| && seen[i].sent <= now.sent
    requires next == log + Tagged(i, now.sent[|seen[i].sent|..])
    ensures Kept(all, next, seen[i := now], repr)
  {
    PartedBySending(log, seen, i, now.sent[|seen[i].sent|..], now);
  }

  /** The worker as far as it starts and pumps runs. */
  class Runs {
    /** The runs in the order they were started; the worker's list holds the listed ones in this order. */
    var all: seq<Run>
    /** All messages sent, in order, and each run's state. */
    ghost var log: seq<Entry>
    ghost var seen: seq<Seen>
    ghost var repr: set<object>

    ghost predicate Valid()
      reads this, repr
    {
      && this !in repr && Kept(all, log, seen, repr)
      && forall i :: 0 <= i < |all| ==> Good(all[i], seen[i])
    }

    constructor ()
      ensures Valid() && fresh(repr) && all == [] && log == []
    {
      all, log, seen, repr := [], [], [], {};
    }

    method Start(ending: Ending)
      requires Valid()
      modifies this
      ensures Valid() && fresh(repr - old(repr)) && log == old(log)
      ensures |all| == |old(all)| + 1 && all[..|old(all)|] == old(all)
      ensures seen == old(seen) + [Seen([], true, false)] && all[|old(all)|].process.ending == ending
    {
      var run := new Run(ending);
      assert forall i :: 0 <= i < |all| ==> Within(all[i], repr);
      Add(run);
    }

    method Add(run: Run)
      requires Valid() && Good(run, Seen([], true, false)) && this !in {run, run.process, run.stdout, run.stderr}
      requires forall i :: 0 <= i < |all| ==> Separate(all[i], run)
      modifies this
      ensures Valid() && repr == old(repr) + {run, run.process, run.stdout, run.stderr}
      ensures log == old(log) && all == old(all) + [run] && seen == old(seen) + [Seen([], true, false)]
    {
      ghost var wider := repr + {run, run.process, run.stdout, run.stderr};
      KeptByAdding(all, log, seen, repr, run, Seen([], true, false), wider);
      all := all + [run];
      seen := seen + [Seen([], true, false)];
      repr := wider;
    }

    /** One run's turn in pump's loop. */
    method PumpOne(i: nat, timing: Timing)
      requires Valid() && i < |all| && all[i].listed
      modifies this`log, this`seen, all[i], all[i].process, all[i].stdout, all[i].stderr
      ensures Valid() && old(log) <= log && seen == old(seen)[i := seen[i]]
      ensures old(seen[i].ended) ==> !seen[i].listed
    {
      var run := all[i];
      assert Good(run, seen[i]) && Within(run, repr);
      run.Pump(timing.before, timing.between, timing.after);
      ghost var now := Seen(run.sent, run.listed, run.process.ended);
      ghost var more := Tagged(i, run.sent[|seen[i].sent|..]);
      KeptByNoting(all, log, seen, repr, i, now, log + more);
      forall j | 0 <= j < |all| ensures Good(all[j], seen[i := now][j]) {
        if j != i {
          assert old(Good(all[j], seen[j]));
          assert Separate(all[j], run) && Separate(run, all[j]);
        }
      }
      Note(log + more, seen[i := now]);
    }

    ghost method Note(longer: seq<Entry>, now: seq<Seen>)
      requires this !in repr && Kept(all, longer, now, repr)
      requires forall j :: 0 <= j < |all| ==> Good(all[j], now[j])
      modifies this`log, this`seen
      ensures Valid() && log == longer && seen == now
    {
      log, seen := longer, now;
    }

    /** Run i's turn, which it has only while it is listed. */
    method Turn(i: nat, timing: Timing)
      requires Valid() && i < |all|
      modifies this`log, this`seen, repr
      ensures Valid() && old(log) <= log && seen == old(seen)[i := seen[i]]
      ensures old(seen[i].ended) ==> !seen[i].listed
    {
      assert Good(all[i], seen[i]) && Within(all[i], repr);
      if all[i].listed {
        PumpOne(i, timing);
      }
    }

    /** One round of pump: each listed run has its turn, in the order they were started. */
    method Pump(timings: seq<Timing>)
      requires Valid() && |timings| == |all|
      modifies this`log, this`seen, repr
      ensures Valid() && old(log) <= log && |seen| == |old(seen)|
      ensures forall i :: 0 <= i < |seen| && old(seen[i].ended) ==> !seen[i].listed
    {
      var i := 0;
      while i < |all|
        invariant 0 <= i <= |all| && Valid() && old(log) <= log
        invariant |seen| == |old(seen)| && forall j :: i <= j < |seen| ==> seen[j] == old(seen[j])
        invariant forall j :: 0 <= j < i && old(seen[j].ended) ==> !seen[j].listed
      {
        Turn(i, timings[i]);
        i := i + 1;
      }
    }

    /**
      A run's part of the log: only output while it is listed; afterwards its
      child has ended, all it ever printed is there to the byte, and one exit
      ends it.
     */
    lemma EachRunWhole(i: nat)
      requires Valid() && i < |all|
      ensures all[i].listed ==> OnlyOutput(Of(i, log))
      ensures !all[i].listed ==>
        && all[i].process.ended
        && ItemsOf(Stdout, Of(i, log)) == L.AllItems(all[i].process.stdout)
        && ItemsOf(Stderr, Of(i, log)) == L.AllItems(all[i].process.stderr)
        && Logged(ItemsOf(Stdout, Of(i, log))) == all[i].process.stdout
        && Logged(ItemsOf(Stderr, Of(i, log))) == all[i].process.stderr
        && Of(i, log) != []
        && OnlyOutput(Of(i, log)[..|Of(i, log)| - 1])
        && var ending := all[i].process.ending;
           Of(i, log)[|Of(i, log)| - 1]
             == (if ending.skipped then Exit(0, true) else Exit(if ending.hasCode then ending.code else -1, false))
    {
      assert Good(all[i], seen[i]);
      assert Of(i, log) == seen[i].sent;
      FlushCompletes(all[i].process.stdout);
      FlushCompletes(all[i].process.stderr);
    }

    /**
      Once a run is off the list: every item of a valid output, whatever ticks
      and chunks it went through, is valid by itself exactly when the output is
      aligned.
     */
    lemma EachRunIntactExactly(i: nat)
      requires Valid() && i < |all| && !all[i].listed
      ensures C.Valid(all[i].process.stdout) ==>
                (C.Intact(ItemsOf(Stdout, Of(i, log))) <==> C.Aligned(all[i].process.stdout))
      ensures C.Valid(all[i].process.stderr) ==>
                (C.Intact(ItemsOf(Stderr, Of(i, log))) <==> C.Aligned(all[i].process.stderr))
    {
      EachRunWhole(i);
      if C.Valid(all[i].process.stdout) {
        C.IntactExactly(all[i].process.stdout);
      }
      if C.Valid(all[i].process.stderr) {
        C.IntactExactly(all[i].process.stderr);
      }
    }
  }
}
