/**
  packages/js/src/session.ts, the Session class itself. Its methods do what the
  state machine says; SessionRuns and SessionReplies say what that is worth.
 */
module AppSession {
  import opened Sequences
  import opened Wrappers
  import opened SessionSteps
  import R = SessionReplies

  /** CountDropped looks past an entry of another run. */
  lemma NotThisOne(dropped: seq<Drop>, i: nat, run: string)
    requires i < |dropped| && dropped[i].run != run
    ensures dropped[..i] + OneMore(dropped[i..], run) == dropped[..i + 1] + OneMore(dropped[i + 1..], run)
  {
    assert dropped[i..][0] == dropped[i] && dropped[i..][1..] == dropped[i + 1..];
    assert dropped[..i + 1] == dropped[..i] + [dropped[i]];
    Assoc(dropped[..i], [dropped[i]], OneMore(dropped[i + 1..], run));
  }

  /** What CountDropped does once it found the run's entry, or that there is none. */
  lemma Counted(dropped: seq<Drop>, i: nat, run: string)
    requires i <= |dropped| && (i < |dropped| ==> dropped[i].run == run)
    ensures dropped[..i] + OneMore(dropped[i..], run) ==
            if i < |dropped| then dropped[i := Drop(run, dropped[i].count + 1)] else dropped + [Drop(run, 1)]
  {
    if i < |dropped| {
      assert dropped[i..][0] == dropped[i] && dropped[i..][1..] == dropped[i + 1..];
    }
  }

  lemma OneMoreLooked(all: seq<Drop>, k: nat, only: Option<string>)
    requires k < |all|
    ensures Picks(only, all[k].run) ==>
              && Reports(all[..k + 1], only) == Reports(all[..k], only) + [DropReport(all[k].run, all[k].count)]
              && Unreported(all[..k + 1], only) == Unreported(all[..k], only)
    ensures !Picks(only, all[k].run) ==>
              && Reports(all[..k + 1], only) == Reports(all[..k], only)
              && Unreported(all[..k + 1], only) == Unreported(all[..k], only) + [all[k]]
  {
    assert all[..k + 1][..k] == all[..k];
  }

  lemma Rest(dropped: seq<Drop>, left: seq<Drop>, all: seq<Drop>, k: nat)
    requires k <= |all| && dropped == left + all[k..] && |left| < |dropped|
    ensures k < |all| && dropped[|left|] == all[k]
    ensures dropped[..|left|] + dropped[|left| + 1..] == left + all[k + 1..]
    ensures dropped == (left + [all[k]]) + all[k + 1..]
  {
  }

  lemma SentAllPlus(o: Outbox, ms: seq<Message>, m: Message, size: Message -> nat)
    ensures SentAll(o, ms + [m], size) == Sent(SentAll(o, ms, size), m, size)
  {
    assert (ms + [m])[..|ms|] == ms;
  }

  /** reportDropped's loop after k entries of all, with i of them left in the map. */
  ghost predicate Reporting(out: Outbox, dropped: seq<Drop>, start: Outbox, all: seq<Drop>, k: nat, i: nat,
                            only: Option<string>, size: Message -> nat)
  {
    && k <= |all| && i == |Unreported(all[..k], only)|
    && dropped == Unreported(all[..k], only) + all[k..]
    && out == SentAll(start, Reports(all[..k], only), size)
  }

  lemma ReportingEnds(out: Outbox, dropped: seq<Drop>, start: Outbox, all: seq<Drop>, k: nat, i: nat,
                      only: Option<string>, size: Message -> nat)
    ensures out == start && dropped == all && k == i == 0 ==> Reporting(out, dropped, start, all, k, i, only, size)
    ensures Reporting(out, dropped, start, all, k, i, only, size) && i >= |dropped| ==>
              out == SentAll(start, Reports(all, only), size) && dropped == Unreported(all, only)
  {
    if out == start && dropped == all && k == i == 0 {
      assert all[..0] == [] && dropped == [] + all[0..];
    }
    if Reporting(out, dropped, start, all, k, i, only, size) && i >= |dropped| {
      assert all[..k] == all && dropped == Unreported(all, only) + [];
    }
  }

  lemma ReportingStep(out: Outbox, dropped: seq<Drop>, start: Outbox, all: seq<Drop>, k: nat, i: nat,
                      only: Option<string>, size: Message -> nat)
    requires Reporting(out, dropped, start, all, k, i, only, size) && i < |dropped|
    ensures Picks(only, dropped[i].run) ==>
              Reporting(Sent(out, DropReport(dropped[i].run, dropped[i].count), size),
                        dropped[..i] + dropped[i + 1..], start, all, k + 1, i, only, size)
    ensures !Picks(only, dropped[i].run) ==> Reporting(out, dropped, start, all, k + 1, i + 1, only, size)
  {
    Rest(dropped, Unreported(all[..k], only), all, k);
    OneMoreLooked(all, k, only);
    SentAllPlus(start, Reports(all[..k], only), DropReport(all[k].run, all[k].count), size);
  }

  /**
    The fields of Session that the modelled calls use. immediates, writable,
    written, listeners and closed stand for the event loop and the socket; the
    ghost fields record what was said and how config() calls were settled.
   */
  class Session {
    const env: Settings
    var batch: seq<Message>
    var flushScheduled: bool
    var dropped: seq<Drop>
    var replies: seq<Asker>
    var lastDoc: Option<string>
    var immediates: nat
    var listeners: nat
    var writable: bool
    var closed: bool
    var written: seq<Message>
    ghost var said: seq<Message>
    ghost var settled: seq<(nat, Reply)>
    ghost var answered: nat
    var asked: nat

    ghost function Out(): Outbox
      reads this
    {
      Outbox(batch, flushScheduled, immediates, writable, written, said)
    }

    ghost function Asks(): Asking
      reads this
    {
      Asking(replies, lastDoc, asked, settled, answered)
    }

    ghost function View(): State
      reads this
    {
      State(Out(), dropped, listeners, Asks(), closed)
    }

    /** What every event keeps: SessionRuns and SessionReplies say what it means. */
    ghost predicate Valid()
      reads this
    {
      R.Sound(View(), env)
    }

    constructor (env: Settings)
      ensures Valid() && View() == INITIAL && this.env == env
    {
      this.env := env;
      batch, flushScheduled, dropped, replies, lastDoc := [], false, [], [], None;
      immediates, listeners, writable, closed, written := 0, 0, true, false, [];
      said, settled, answered, asked := [], [], 0, 0;
    }

    method Send(m: Message)
      modifies `batch, `flushScheduled, `immediates, `written, `said
      ensures Out() == Sent(old(Out()), m, env.size)
    {
      batch, said := batch + [m], said + [m];
      var length := BatchLength();
      if length >= BATCH_SIZE {
        Flush();
      } else if !flushScheduled {
        flushScheduled := true;
        immediates := immediates + 1;
      }
    }

    method BatchLength() returns (length: nat)
      ensures length == SizeOf(batch, env.size)
    {
      length := 0;
      for i := 0 to |batch|
        invariant length == SizeOf(batch[..i], env.size)
      {
        assert batch[..i + 1][..i] == batch[..i];
        length := length + env.size(batch[i]);
      }
      assert batch[..|batch|] == batch;
    }

    method Flush()
      modifies `batch, `flushScheduled, `written
      ensures Out() == Flushed(old(Out()))
    {
      flushScheduled := false;
      if batch == [] {
        assert written + batch == written;
        return;
      }
      var taken := batch;
      batch := [];
      if writable {
        written := written + taken;
      }
    }

    /** Writes at once, behind the batch; a closed socket takes nothing. */
    method WriteNow(m: Message)
      modifies `batch, `flushScheduled, `written, `said
      ensures Out() == WrittenNow(old(Out()), m)
    {
      Flush();
      said := said + [m];
      if writable {
        written := written + [m];
      }
    }

    method CountDropped(run: string)
      modifies `dropped
      ensures dropped == OneMore(old(dropped), run)
    {
      var i := 0;
      assert dropped[..0] + OneMore(dropped[0..], run) == OneMore(dropped, run);
      while i < |dropped| && dropped[i].run != run
        invariant 0 <= i <= |dropped| && dropped == old(dropped)
        invariant OneMore(dropped, run) == dropped[..i] + OneMore(dropped[i..], run)
      {
        NotThisOne(dropped, i, run);
        i := i + 1;
      }
      Counted(dropped, i, run);
      if i < |dropped| {
        dropped := dropped[i := Drop(run, dropped[i].count + 1)];
      } else {
        dropped := dropped + [Drop(run, 1)];
      }
    }

    method Print(run: string, stream: Stream, line: string, partial: bool, queued: nat)
      modifies this
      ensures View() == OutputCalled(old(View()), Output(run, stream, line, partial), queued, env)
    {
      var length := BatchLength();
      if queued + length > env.limit {
        if |dropped| == 0 {
          listeners := listeners + 1;
        }
        CountDropped(run);
        return;
      }
      Send(Output(run, stream, line, partial));
    }

    /** Deletes an entry and then sends its report. */
    method Report(i: nat)
      requires i < |dropped|
      modifies `dropped, `batch, `flushScheduled, `immediates, `written, `said
      ensures Out() == Sent(old(Out()), DropReport(old(dropped)[i].run, old(dropped)[i].count), env.size)
      ensures dropped == old(dropped)[..i] + old(dropped)[i + 1..]
    {
      var drop := dropped[i];
      dropped := dropped[..i] + dropped[i + 1..];
      Send(DropReport(drop.run, drop.count));
    }

    /** One round of the loop, which deletes an entry before it sends the entry's report. */
    method ReportNext(i: nat, only: Option<string>, ghost start: Outbox, ghost all: seq<Drop>, ghost k: nat) returns (j: nat)
      requires Reporting(Out(), dropped, start, all, k, i, only, env.size) && i < |dropped|
      modifies `dropped, `batch, `flushScheduled, `immediates, `written, `said
      ensures Reporting(Out(), dropped, start, all, k + 1, j, only, env.size)
      ensures |dropped| - j < old(|dropped|) - i
    {
      ReportingStep(Out(), dropped, start, all, k, i, only, env.size);
      if Picks(only, dropped[i].run) {
        Report(i);
        j := i;
      } else {
        j := i + 1;
      }
    }

    method ReportDropped(only: Option<string>)
      modifies `dropped, `batch, `flushScheduled, `immediates, `written, `said
      ensures Out() == SentAll(old(Out()), Reports(old(dropped), only), env.size)
      ensures dropped == Unreported(old(dropped), only)
    {
      ghost var start, all := Out(), dropped;
      ghost var k: nat := 0;
      ReportingEnds(start, dropped, start, all, 0, 0, only, env.size);
      var i: nat := 0;
      while i < |dropped|
        invariant Reporting(Out(), dropped, start, all, k, i, only, env.size)
        decreases |dropped| - i
      {
        i := ReportNext(i, only, start, all, k);
        k := k + 1;
      }
      ReportingEnds(Out(), dropped, start, all, k, i, only, env.size);
    }

    method End(run: string, code: int, skipped: bool)
      modifies `dropped, `batch, `flushScheduled, `immediates, `written, `said
      ensures var called := ExitCalled(old(View()), Exit(run, code, skipped), env);
              Out() == called.out && dropped == called.dropped
    {
      ReportDropped(Some(run));
      Send(Exit(run, code, skipped));
    }

    method SayLeave()
      modifies this
      ensures View() == LeaveCalled(old(View()), env)
    {
      Send(Leave);
    }

    method Settle(asker: Asker, reply: Reply)
      modifies `settled
      ensures settled == old(settled) + Settled(asker, reply)
    {
      if asker.Push? {
        settled := settled + [(asker.promise, reply)];
      }
    }

    method PushConfig(doc: string)
      modifies this
      ensures View() == ConfigCalled(old(View()), doc)
    {
      var promise := asked;
      asked := asked + 1;
      if !writable {
        settled := settled + [(promise, NOT_CONNECTED)];
        return;
      }
      if |replies| > 0 {
        settled := settled + [(promise, PENDING)];
        return;
      }
      replies := replies + [Push(promise, doc)];
      lastDoc := Some(doc);
      WriteNow(Config(doc, None));
    }

    method ReceiveReply(reply: Reply)
      modifies this
      ensures View() == old(View()).(asking := ReplyReceived(old(Asks()), reply))
    {
      answered := answered + 1;
      if replies != [] {
        var asker := replies[0];
        replies := replies[1..];
        Settle(asker, reply);
      }
    }

    method ReceiveReload(id: Option<string>)
      modifies this
      ensures View() == (if id.None? then old(View()) else ReloadReceived(old(View()), id.value, env))
    {
      if id.None? {
        return;
      }
      if lastDoc.None? || |replies| > 0 {
        Send(ReloadError(id.value));
        return;
      }
      replies := replies + [Answer(id.value, lastDoc.value)];
      WriteNow(Config(lastDoc.value, id));
    }

    /** The event loop runs a flush it owes. */
    method RunImmediate()
      modifies this
      ensures View() == ImmediateRun(old(View()))
    {
      if immediates > 0 {
        immediates := immediates - 1;
        Flush();
      }
    }

    /** The socket's drain event runs the listeners waiting for it. */
    method Drained()
      modifies `listeners, `dropped, `batch, `flushScheduled, `immediates, `written, `said
      ensures var drained := SessionSteps.Drained(old(View()), env);
              Out() == drained.out && dropped == drained.dropped && listeners == 0
    {
      if listeners > 0 {
        listeners := 0;
        ReportDropped(None);
      }
    }

    method Close()
      modifies this
      ensures View() == Ended(old(View()))
    {
      Flush();
      writable := false;
    }

    /** The socket's close event. */
    method SocketGone()
      modifies this
      ensures View() == Gone(old(View()))
    {
      writable, closed := false, true;
      var waiting := replies;
      replies := [];
      for i := 0 to |waiting|
        invariant settled == old(settled) + SettledAll(waiting[..i], STOPPED)
        invariant replies == [] && asked == old(asked) && answered == old(answered) && lastDoc == old(lastDoc)
        invariant Out() == old(Out()).(writable := false) && dropped == old(dropped)
        invariant listeners == old(listeners) && closed
      {
        assert waiting[..i + 1][..i] == waiting[..i];
        ghost var before := SettledAll(waiting[..i], STOPPED);
        Settle(waiting[i], STOPPED);
        assert (old(settled) + before) + Settled(waiting[i], STOPPED) == old(settled) + (before + Settled(waiting[i], STOPPED));
      }
      assert waiting[..|waiting|] == waiting;
    }

    /** A call of the app. */
    method HandleCall(e: Event)
      requires e.OnOutput? || e.OnExit? || e.OnLeave? || e.OnConfig?
      modifies this
      ensures View() == Step(old(View()), e, env)
    {
      match e {
        case OnOutput(run, stream, line, partial, queued) => Print(run, stream, line, partial, queued);
        case OnExit(run, code, skipped) => End(run, code, skipped);
        case OnLeave => SayLeave();
        case OnConfig(doc) => PushConfig(doc);
      }
    }

    /** A message of the daemon. */
    method HandleMessage(e: Event)
      requires e.OnReply? || e.OnReload?
      modifies this
      ensures View() == Step(old(View()), e, env)
    {
      match e {
        case OnReply(reply) => ReceiveReply(reply);
        case OnReload(id) => ReceiveReload(id);
      }
    }

    /** What makes the session write: the event loop, a drained socket, or the process coming to its end. */
    method HandleFlush(e: Event)
      requires e.OnImmediate? || e.OnCrash? || e.OnDrain?
      modifies this
      ensures View() == Step(old(View()), e, env)
    {
      match e {
        case OnImmediate => RunImmediate();
        case OnCrash => Flush();
        case OnDrain => Drained();
      }
    }

    /** What ends the socket, at either side. */
    method HandleSocket(e: Event)
      requires e.OnEnd? || e.OnBroken? || e.OnGone?
      modifies this
      ensures View() == Step(old(View()), e, env)
    {
      match e {
        case OnEnd => Close();
        case OnBroken => writable := false;
        case OnGone => SocketGone();
      }
    }

    /** Whatever happens, in whatever order: each event keeps what Valid says. */
    method Handle(e: Event)
      requires Valid()
      modifies this
      ensures Valid() && View() == Step(old(View()), e, env)
    {
      R.StepSound(View(), e, env);
      if e.OnOutput? || e.OnExit? || e.OnLeave? || e.OnConfig? {
        HandleCall(e);
      } else if e.OnReply? || e.OnReload? {
        HandleMessage(e);
      } else if e.OnImmediate? || e.OnCrash? || e.OnDrain? {
        HandleFlush(e);
      } else {
        HandleSocket(e);
      }
    }
  }
}
