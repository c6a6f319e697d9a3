/**
  packages/js/src/session.ts over whole sessions: nothing is lost or put out of
  order on the way to the socket, every dropped line is accounted for, and each
  config gets its own reply.
 */
module SessionRuns {
  import opened Wrappers
  import opened SessionSteps
  import opened Sequences

  // ----- The way to the socket -----

  /** A batch is always due to be flushed, and small. */
  ghost predicate FlushDue(o: Outbox, size: Message -> nat) {
    && (o.batch != [] ==> o.flushScheduled)
    && (o.flushScheduled ==> o.immediates > 0)
    && SizeOf(o.batch, size) < BATCH_SIZE
  }

  /** While the socket takes data, what was written and what is batched are all the messages in order. */
  ghost predicate InOrder(o: Outbox) {
    && o.written <= o.said
    && (o.writable ==> o.written + o.batch == o.said)
  }

  lemma SentDue(o: Outbox, m: Message, size: Message -> nat)
    requires FlushDue(o, size)
    ensures FlushDue(Sent(o, m, size), size)
  {
  }

  lemma SentInOrder(o: Outbox, m: Message, size: Message -> nat)
    requires InOrder(o)
    ensures InOrder(Sent(o, m, size))
    ensures Sent(o, m, size).said == o.said + [m]
    ensures Sent(o, m, size).writable == o.writable
  {
    Assoc(o.written, o.batch, [m]);
  }

  lemma {:induction false} SentAllDue(o: Outbox, ms: seq<Message>, size: Message -> nat)
    requires FlushDue(o, size)
    ensures FlushDue(SentAll(o, ms, size), size)
  {
    if ms != [] {
      var before := ms[..|ms| - 1];
      SentAllDue(o, before, size);
      SentDue(SentAll(o, before, size), ms[|ms| - 1], size);
    }
  }

  lemma {:induction false} SentAllInOrder(o: Outbox, ms: seq<Message>, size: Message -> nat)
    requires InOrder(o)
    ensures InOrder(SentAll(o, ms, size))
    ensures SentAll(o, ms, size).said == o.said + ms
    ensures SentAll(o, ms, size).writable == o.writable
  {
    if ms == [] {
      assert o.said + [] == o.said;
    } else {
      var before, m := ms[..|ms| - 1], ms[|ms| - 1];
      SentAllInOrder(o, before, size);
      SentInOrder(SentAll(o, before, size), m, size);
      assert ms == before + [m];
      Assoc(o.said, before, [m]);
    }
  }

  /** The messages an event makes the session produce. */
  function Says(s: State, e: Event, env: Settings): seq<Message> {
    match e
    case OnOutput(run, stream, line, partial, queued) =>
      if queued + SizeOf(s.out.batch, env.size) > env.limit then [] else [Output(run, stream, line, partial)]
    case OnExit(run, code, skipped) => Reports(s.dropped, Some(run)) + [Exit(run, code, skipped)]
    case OnLeave => [Leave]
    case OnConfig(doc) => if s.out.writable && s.asking.replies == [] then [Config(doc, None)] else []
    case OnReload(id) =>
      if id.None? then []
      else if s.asking.lastDoc.None? || s.asking.replies != [] then [ReloadError(id.value)]
      else [Config(s.asking.lastDoc.value, id)]
    case OnDrain => if s.listeners == 0 then [] else Reports(s.dropped, None)
    case _ => []
  }

  lemma StepInOrder(s: State, e: Event, env: Settings)
    requires InOrder(s.out)
    ensures InOrder(Step(s, e, env).out)
    ensures Step(s, e, env).out.said == s.out.said + Says(s, e, env)
  {
    assert s.out.said + [] == s.out.said;
    if e.OnOutput? {
      SentInOrder(s.out, Output(e.run, e.stream, e.line, e.partial), env.size);
    } else if e.OnExit? {
      var reports := Reports(s.dropped, Some(e.run));
      SentAllInOrder(s.out, reports, env.size);
      SentInOrder(SentAll(s.out, reports, env.size), Exit(e.run, e.code, e.skipped), env.size);
      Assoc(s.out.said, reports, [Exit(e.run, e.code, e.skipped)]);
    } else if e.OnLeave? {
      SentInOrder(s.out, Leave, env.size);
    } else if e.OnReload? && e.id.Some? {
      SentInOrder(s.out, ReloadError(e.id.value), env.size);
    } else if e.OnDrain? {
      SentAllInOrder(s.out, Reports(s.dropped, None), env.size);
    }
  }

  lemma StepFlushDue(s: State, e: Event, env: Settings)
    requires FlushDue(s.out, env.size)
    ensures FlushDue(Step(s, e, env).out, env.size)
  {
    if e.OnOutput? {
      SentDue(s.out, Output(e.run, e.stream, e.line, e.partial), env.size);
    } else if e.OnExit? {
      var reports := Reports(s.dropped, Some(e.run));
      SentAllDue(s.out, reports, env.size);
      SentDue(SentAll(s.out, reports, env.size), Exit(e.run, e.code, e.skipped), env.size);
    } else if e.OnLeave? {
      SentDue(s.out, Leave, env.size);
    } else if e.OnReload? && e.id.Some? {
      SentDue(s.out, ReloadError(e.id.value), env.size);
    } else if e.OnDrain? {
      SentAllDue(s.out, Reports(s.dropped, None), env.size);
    }
  }

  /**
    Whatever the session is asked to do, in any order: what the socket was
    given is the start of all the messages in order, and all but the batch
    while it takes data; a batch is below the write size and due to be flushed.
   */
  lemma {:induction false} NothingLostOnTheWay(es: seq<Event>, env: Settings)
    ensures InOrder(After(es, env).out) && FlushDue(After(es, env).out, env.size)
  {
    if es != [] {
      var before, e := es[..|es| - 1], es[|es| - 1];
      NothingLostOnTheWay(before, env);
      StepInOrder(After(before, env), e, env);
      StepFlushDue(After(before, env), e, env);
    }
  }

  /** What makes the session write out its batch: the end of the process, the end of the connection, a flush that is due. */
  predicate Flushes(s: State, e: Event) {
    e.OnCrash? || e.OnEnd? || (e.OnImmediate? && s.out.immediates > 0)
  }

  /**
    Over every history: when the app closes its session, crashes or gets to a
    flush it owes, all messages produced so far have been handed to the socket,
    in order, if it took data until then.
   */
  lemma FlushedInTime(es: seq<Event>, e: Event, env: Settings)
    requires Flushes(After(es, env), e)
    ensures var s, t := After(es, env), After(es + [e], env);
            && t.out.batch == [] && t.out.said == s.out.said
            && (s.out.writable ==> t.out.written == t.out.said)
            && t.out.writable == (s.out.writable && !e.OnEnd?)
  {
    assert (es + [e])[..|es|] == es;
    NothingLostOnTheWay(es, env);
  }

  predicate SocketEnds(e: Event) {
    e.OnEnd? || e.OnBroken? || e.OnGone?
  }

  lemma StepWritable(s: State, e: Event, env: Settings)
    ensures Step(s, e, env).out.writable <==> s.out.writable && !SocketEnds(e)
  {
    if e.OnExit? {
      SentAllFlags(s.out, Reports(s.dropped, Some(e.run)), env.size);
    } else if e.OnDrain? {
      SentAllFlags(s.out, Reports(s.dropped, None), env.size);
    }
  }

  lemma SentAllFlags(o: Outbox, ms: seq<Message>, size: Message -> nat)
    ensures SentAll(o, ms, size).writable == o.writable
  {
  }

  predicate NeverEnds(es: seq<Event>) {
    forall i :: 0 <= i < |es| ==> !SocketEnds(es[i])
  }

  lemma NeverEndsPlus(es: seq<Event>)
    requires es != []
    ensures NeverEnds(es) <==> NeverEnds(es[..|es| - 1]) && !SocketEnds(es[|es| - 1])
  {
    var before := es[..|es| - 1];
    assert forall i :: 0 <= i < |before| ==> before[i] == es[i];
  }

  /** The socket takes data until the app ends it, it breaks or it closes. */
  lemma {:induction false} WritableExactly(es: seq<Event>, env: Settings)
    ensures After(es, env).out.writable <==> NeverEnds(es)
  {
    if es != [] {
      NeverEndsPlus(es);
      WritableExactly(es[..|es| - 1], env);
      StepWritable(After(es[..|es| - 1], env), es[|es| - 1], env);
    }
  }

  /** A batch is as long as its messages together. */
  lemma {:induction false} SizeIsSum(a: seq<Message>, b: seq<Message>, size: Message -> nat)
    ensures SizeOf(a + b, size) == SizeOf(a, size) + SizeOf(b, size)
    ensures |b| == 1 ==> SizeOf(b, size) == size(b[0])
  {
    if b == [] {
      assert a + b == a;
    } else {
      SizeIsSum(a, b[..|b| - 1], size);
      assert (a + b)[..|a + b| - 1] == a + b[..|b| - 1];
    }
  }

  /** A message waits in the batch until that is full, and the first one to wait has the event loop asked for a flush. */
  lemma BatchesExactly(o: Outbox, m: Message, size: Message -> nat)
    ensures var next, full := Sent(o, m, size), SizeOf(o.batch, size) + size(m) >= BATCH_SIZE;
            && next.batch == (if full then [] else o.batch + [m])
            && next.immediates == o.immediates + (if full || o.flushScheduled then 0 else 1)
            && (next.flushScheduled <==> !full)
  {
    SizeIsSum(o.batch, [m], size);
  }

  /** Each flush the event loop owes is run once. */
  lemma OwedFlushRuns(s: State, env: Settings)
    requires s.out.immediates > 0
    ensures Step(s, OnImmediate, env).out.immediates == s.out.immediates - 1
  {
  }

  // ----- Dropped lines -----

  function Filter<T>(ms: seq<T>, keep: T -> bool): seq<T> {
    if ms == [] then []
    else Filter(ms[..|ms| - 1], keep) + if keep(ms[|ms| - 1]) then [ms[|ms| - 1]] else []
  }

  lemma {:induction false} FilterConcat<T>(a: seq<T>, b: seq<T>, keep: T -> bool)
    ensures Filter(a + b, keep) == Filter(a, keep) + Filter(b, keep)
  {
    if b == [] {
      assert a + b == a;
    } else {
      var before, m := b[..|b| - 1], b[|b| - 1];
      FilterConcat(a, before, keep);
      assert (a + b)[..|a + b| - 1] == a + before;
      assert (a + b)[|a + b| - 1] == m;
    }
  }

  function IsLine(run: string): Message -> bool {
    (m: Message) => m.Output? && m.run == run
  }

  /** The lines of a run's output that were sent. */
  function LinesOf(ms: seq<Message>, run: string): seq<Message> {
    Filter(ms, IsLine(run))
  }

  /** How many lines the messages say a run lost. */
  function Reported(ms: seq<Message>, run: string): nat {
    if ms == [] then 0
    else
      var m := ms[|ms| - 1];
      Reported(ms[..|ms| - 1], run) + if m.DropReport? && m.run == run then m.count else 0
  }

  /** The lines a run called output() with. */
  function CallsOf(es: seq<Event>, run: string): seq<Message> {
    if es == [] then []
    else
      var e := es[|es| - 1];
      CallsOf(es[..|es| - 1], run) +
      if e.OnOutput? && e.run == run then [Output(e.run, e.stream, e.line, e.partial)] else []
  }

  predicate Subsequence<T(==)>(a: seq<T>, b: seq<T>) {
    a == [] ||
    (b != [] && (Subsequence(a, b[..|b| - 1]) ||
                 (a[|a| - 1] == b[|b| - 1] && Subsequence(a[..|a| - 1], b[..|b| - 1]))))
  }

  lemma SubsequencePlus<T>(a: seq<T>, b: seq<T>, x: T)
    requires Subsequence(a, b)
    ensures Subsequence(a, b + [x]) && Subsequence(a + [x], b + [x])
  {
    assert (b + [x])[..|b|] == b && (a + [x])[..|a|] == a;
  }

  lemma {:induction false} ReportedConcat(a: seq<Message>, b: seq<Message>, run: string)
    ensures Reported(a + b, run) == Reported(a, run) + Reported(b, run)
  {
    if b == [] {
      assert a + b == a;
    } else {
      var before, m := b[..|b| - 1], b[|b| - 1];
      ReportedConcat(a, before, run);
      assert (a + b)[..|a + b| - 1] == a + before;
      assert (a + b)[|a + b| - 1] == m;
    }
  }

  lemma {:induction false} HeldConcat(a: seq<Drop>, b: seq<Drop>, run: string)
    ensures Held(a + b, run) == Held(a, run) + Held(b, run)
  {
    if b == [] {
      assert a + b == a;
    } else {
      var before, m := b[..|b| - 1], b[|b| - 1];
      HeldConcat(a, before, run);
      assert (a + b)[..|a + b| - 1] == a + before;
      assert (a + b)[|a + b| - 1] == m;
    }
  }

  lemma HeldOne(d: Drop, run: string)
    ensures Held([d], run) == if d.run == run then d.count else 0
  {
    assert [d][..0] == [];
    assert Held([], run) == 0;
  }

  lemma {:induction false} HeldOneMore(dropped: seq<Drop>, dropping: string, run: string)
    ensures Held(OneMore(dropped, dropping), run) == Held(dropped, run) + if dropping == run then 1 else 0
  {
    if dropped == [] {
      HeldOne(Drop(dropping, 1), run);
    } else {
      var first, rest := dropped[0], dropped[1..];
      assert dropped == [first] + rest;
      HeldConcat([first], rest, run);
      HeldOne(first, run);
      if first.run == dropping {
        HeldConcat([Drop(dropping, first.count + 1)], rest, run);
        HeldOne(Drop(dropping, first.count + 1), run);
      } else {
        HeldOneMore(rest, dropping, run);
        HeldConcat([first], OneMore(rest, dropping), run);
      }
    }
  }

  lemma LinesOfOne(m: Message, run: string)
    ensures LinesOf([m], run) == if m.Output? && m.run == run then [m] else []
    ensures Reported([m], run) == if m.DropReport? && m.run == run then m.count else 0
  {
    assert [m][..0] == [];
    assert Filter<Message>([], IsLine(run)) == [] && Reported([], run) == 0;
  }

  lemma ReportedPlus(ms: seq<Message>, m: Message, run: string)
    ensures Reported(ms + [m], run) == Reported(ms, run) + if m.DropReport? && m.run == run then m.count else 0
  {
    assert (ms + [m])[..|ms|] == ms;
  }

  lemma HeldPlus(ds: seq<Drop>, d: Drop, run: string)
    ensures Held(ds + [d], run) == Held(ds, run) + if d.run == run then d.count else 0
  {
    assert (ds + [d])[..|ds|] == ds;
  }

  /** A report moves a run's held count into its log. */
  lemma {:induction false} ReportsBalance(dropped: seq<Drop>, only: Option<string>, run: string)
    ensures Reported(Reports(dropped, only), run) + Held(Unreported(dropped, only), run) == Held(dropped, run)
    ensures Picks(only, run) ==> Held(Unreported(dropped, only), run) == 0
  {
    if dropped != [] {
      var before, last := dropped[..|dropped| - 1], dropped[|dropped| - 1];
      ReportsBalance(before, only, run);
      if Picks(only, last.run) {
        ReportedPlus(Reports(before, only), DropReport(last.run, last.count), run);
      } else {
        HeldPlus(Unreported(before, only), last, run);
      }
    }
  }

  lemma {:induction false} ReportsAreNoLines(dropped: seq<Drop>, only: Option<string>, run: string)
    ensures LinesOf(Reports(dropped, only), run) == []
  {
    if dropped != [] {
      var before, last := dropped[..|dropped| - 1], dropped[|dropped| - 1];
      ReportsAreNoLines(before, only, run);
      var report := DropReport(last.run, last.count);
      FilterConcat(Reports(before, only), [report], IsLine(run));
      LinesOfOne(report, run);
    }
  }

  lemma ExitBalance(dropped: seq<Drop>, m: Message, run: string)
    requires m.Exit?
    ensures var said := Reports(dropped, Some(m.run)) + [m];
            && LinesOf(said, run) == []
            && Reported(said, run) + Held(Unreported(dropped, Some(m.run)), run) == Held(dropped, run)
  {
    var reports := Reports(dropped, Some(m.run));
    ReportsBalance(dropped, Some(m.run), run);
    ReportsAreNoLines(dropped, Some(m.run), run);
    ReportedPlus(reports, m, run);
    FilterConcat(reports, [m], IsLine(run));
    LinesOfOne(m, run);
  }

  /** What one event adds to a run's lines and reports, against its change to the held count. */
  lemma StepBalance(s: State, e: Event, env: Settings, run: string)
    ensures var said := Says(s, e, env);
            |LinesOf(said, run)| + Reported(said, run) + Held(Step(s, e, env).dropped, run)
              == Held(s.dropped, run) + |CallsOf([e], run)|
    ensures LinesOf(Says(s, e, env), run) == [] || LinesOf(Says(s, e, env), run) == CallsOf([e], run)
  {
    assert [e][..0] == [];
    assert CallsOf([], run) == [] && LinesOf([], run) == [] && Reported([], run) == 0;
    if e.OnOutput? {
      HeldOneMore(s.dropped, e.run, run);
      LinesOfOne(Output(e.run, e.stream, e.line, e.partial), run);
    } else if e.OnExit? {
      ExitBalance(s.dropped, Exit(e.run, e.code, e.skipped), run);
    } else if e.OnDrain? {
      ReportsBalance(s.dropped, None, run);
      ReportsAreNoLines(s.dropped, None, run);
    } else if Says(s, e, env) != [] {
      LinesOfOne(Says(s, e, env)[0], run);
      assert Says(s, e, env) == [Says(s, e, env)[0]];
    }
  }

  lemma CallsOfLast(es: seq<Event>, run: string)
    requires es != []
    ensures CallsOf(es, run) == CallsOf(es[..|es| - 1], run) + CallsOf([es[|es| - 1]], run)
  {
    assert [es[|es| - 1]][..0] == [];
    assert CallsOf([], run) == [];
  }

  /**
    Every line a run printed was sent, in order, or is in a count the run's log
    was told, or is in the count still held.
   */
  lemma {:induction false} EveryLineAccounted(es: seq<Event>, env: Settings, run: string)
    ensures var s := After(es, env);
            && Subsequence(LinesOf(s.out.said, run), CallsOf(es, run))
            && |CallsOf(es, run)| == |LinesOf(s.out.said, run)| + Reported(s.out.said, run) + Held(s.dropped, run)
  {
    if es != [] {
      var before, e := es[..|es| - 1], es[|es| - 1];
      var s := After(before, env);
      var said := Says(s, e, env);
      EveryLineAccounted(before, env, run);
      NothingLostOnTheWay(before, env);
      StepInOrder(s, e, env);
      StepBalance(s, e, env, run);
      FilterConcat(s.out.said, said, IsLine(run));
      ReportedConcat(s.out.said, said, run);
      CallsOfLast(es, run);
      SubsequenceStep(LinesOf(s.out.said, run), CallsOf(before, run), LinesOf(said, run), CallsOf([e], run));
    }
  }

  lemma SubsequenceStep<T>(a: seq<T>, b: seq<T>, c: seq<T>, d: seq<T>)
    requires Subsequence(a, b) && |d| <= 1 && (c == [] || c == d)
    ensures Subsequence(a + c, b + d)
  {
    assert a + [] == a && b + [] == b;
    if |d| == 1 {
      SubsequencePlus(a, b, d[0]);
      assert d == [d[0]];
    }
  }

  /** When a run's exit goes out, its log has been told of every line it lost. */
  lemma ExitIsComplete(es: seq<Event>, env: Settings, run: string, code: int, skipped: bool)
    ensures var s := After(es + [OnExit(run, code, skipped)], env);
            && s.out.said != [] && s.out.said[|s.out.said| - 1] == Exit(run, code, skipped)
            && Held(s.dropped, run) == 0
            && var before := s.out.said[..|s.out.said| - 1];
               |CallsOf(es, run)| == |LinesOf(before, run)| + Reported(before, run)
  {
    var e := OnExit(run, code, skipped);
    var all := es + [e];
    var s := After(es, env);
    assert all[..|all| - 1] == es;
    NothingLostOnTheWay(es, env);
    EveryLineAccounted(es, env, run);
    StepInOrder(s, e, env);
    var reports := Reports(s.dropped, Some(run));
    ReportsBalance(s.dropped, Some(run), run);
    ReportsAreNoLines(s.dropped, Some(run), run);
    Assoc(s.out.said, reports, [Exit(run, code, skipped)]);
    var said := After(all, env).out.said;
    assert said == (s.out.said + reports) + [Exit(run, code, skipped)];
    assert said[..|said| - 1] == s.out.said + reports;
    ReportedConcat(s.out.said, reports, run);
    FilterConcat(s.out.said, reports, IsLine(run));
  }

  /** Each run has one entry, and no entry counts nothing. */
  ghost predicate DropsSound(dropped: seq<Drop>) {
    && (forall i, j :: 0 <= i < j < |dropped| ==> dropped[i].run != dropped[j].run)
    && forall i :: 0 <= i < |dropped| ==> dropped[i].count > 0
  }

  predicate HasRun(dropped: seq<Drop>, run: string) {
    exists i :: 0 <= i < |dropped| && dropped[i].run == run
  }

  lemma {:induction false} OneMoreRuns(dropped: seq<Drop>, run: string, other: string)
    requires HasRun(OneMore(dropped, run), other) && other != run
    ensures HasRun(dropped, other)
  {
    var more := OneMore(dropped, run);
    var i :| 0 <= i < |more| && more[i].run == other;
    if dropped != [] {
      if dropped[0].run == run {
        assert dropped[i].run == other;
      } else if i == 0 {
        assert dropped[0].run == other;
      } else {
        assert OneMore(dropped[1..], run)[i - 1].run == other;
        OneMoreRuns(dropped[1..], run, other);
        var k :| 0 <= k < |dropped[1..]| && dropped[1..][k].run == other;
        assert dropped[k + 1].run == other;
      }
    }
  }

  lemma {:induction false} OneMoreSound(dropped: seq<Drop>, run: string)
    requires DropsSound(dropped)
    ensures DropsSound(OneMore(dropped, run)) && OneMore(dropped, run) != []
  {
    if dropped != [] && dropped[0].run != run {
      OneMoreSound(dropped[1..], run);
      var more := OneMore(dropped[1..], run);
      forall i | 0 <= i < |more| ensures more[i].run != dropped[0].run {
        if more[i].run == dropped[0].run {
          OneMoreRuns(dropped[1..], run, more[i].run);
        }
      }
    }
  }

  lemma {:induction false} UnreportedSound(dropped: seq<Drop>, only: Option<string>)
    requires DropsSound(dropped)
    ensures DropsSound(Unreported(dropped, only))
    ensures forall d :: d in Unreported(dropped, only) ==> d in dropped
    ensures only.None? ==> Unreported(dropped, only) == []
  {
    if dropped != [] {
      var before, last := dropped[..|dropped| - 1], dropped[|dropped| - 1];
      UnreportedSound(before, only);
      var left := Unreported(before, only);
      forall i | 0 <= i < |left| ensures left[i].run != last.run {
        assert left[i] in before;
      }
    }
  }

  lemma StepDrops(s: State, e: Event, env: Settings)
    requires DropsSound(s.dropped) && (s.dropped != [] ==> s.listeners > 0)
    ensures var next := Step(s, e, env);
            DropsSound(next.dropped) && (next.dropped != [] ==> next.listeners > 0)
  {
    if e.OnOutput? {
      OneMoreSound(s.dropped, e.run);
    } else if e.OnExit? {
      UnreportedSound(s.dropped, Some(e.run));
    } else if e.OnDrain? {
      UnreportedSound(s.dropped, None);
    }
  }

  /** A run's lost lines are reported even if it never ends: a drain listener waits while any are held. */
  lemma {:induction false} DropsWillBeReported(es: seq<Event>, env: Settings)
    ensures var s := After(es, env);
            && DropsSound(s.dropped)
            && (s.dropped != [] ==> s.listeners > 0)
            && Step(s, OnDrain, env).dropped == []
  {
    if es != [] {
      DropsWillBeReported(es[..|es| - 1], env);
      StepDrops(After(es[..|es| - 1], env), es[|es| - 1], env);
    }
    UnreportedSound(After(es, env).dropped, None);
  }

  /** One more listener waits for the socket to drain whenever dropping begins, and a drain calls them all. */
  lemma ListensExactly(s: State, e: Event, env: Settings)
    ensures var begins := e.OnOutput? && s.dropped == [] && e.queued + SizeOf(s.out.batch, env.size) > env.limit;
            Step(s, e, env).listeners == if e.OnDrain? then 0 else s.listeners + (if begins then 1 else 0)
  {
  }
}
