/**
  What a job's push resolves to: packages/js/src/session.ts, config(), under the
  push of packages/js/src/runwisp.ts. The session rejects a config by itself
  when it cannot send it or while it awaits any reply, a reload's included.
 */
module PushReplies {
  import opened Wrappers
  import J = JobSteps
  import R = JobRuns
  import opened SessionSteps
  import opened SessionReplies

  // ----- What config() resolves to -----

  /** What the first of the events gives a config that awaits its reply: the daemon's reply, or the socket's end. */
  function FirstReply(later: seq<Event>): Option<Reply> {
    if later == [] then None
    else
      var before := FirstReply(later[..|later| - 1]);
      if before.Some? then before else ReplyIn(later[|later| - 1])
  }

  function ReplyIn(e: Event): Option<Reply> {
    match e
    case OnReply(reply) => Some(reply)
    case OnGone => Some(STOPPED)
    case _ => None
  }

  /** What config(), called in state s, resolves to by the end of later; None while it is awaited. */
  function Outcome(s: State, later: seq<Event>): Option<Reply> {
    if !s.out.writable then Some(NOT_CONNECTED)
    else if s.asking.replies != [] then Some(PENDING)
    else FirstReply(later)
  }

  ghost predicate SettledWith(a: Asking, promise: nat, outcome: Option<Reply>) {
    forall reply :: (promise, reply) in a.settled <==> outcome == Some(reply)
  }

  /** A call not made yet is neither settled nor waiting. */
  predicate OnlyMade(a: Asking) {
    && (forall entry :: entry in a.settled ==> entry.0 < a.asked)
    && (forall asker :: asker in a.replies && asker.Push? ==> asker.promise < a.asked)
  }

  predicate Awaits(a: Asking, promise: nat) {
    |a.replies| == 1 && WaitsFor(a.replies[0], promise)
  }

  /** While awaited the call is the one that waits; once settled it waits no more. */
  ghost predicate Tracks(a: Asking, promise: nat, outcome: Option<Reply>) {
    && OnlyMade(a) && |a.replies| <= 1 && promise < a.asked
    && SettledWith(a, promise, outcome)
    && (Awaits(a, promise) <==> outcome.None?)
  }

  lemma SettledByGone(a: Asking)
    requires |a.replies| <= 1
    ensures SocketClosed(a).settled == a.settled + (if a.replies == [] then [] else Settled(a.replies[0], STOPPED))
  {
    if a.replies != [] {
      assert a.replies == [a.replies[0]] && a.replies[..0] == [];
      assert SettledAll([], STOPPED) == [] && SettledAll(a.replies, STOPPED) == [] + Settled(a.replies[0], STOPPED);
    }
  }

  lemma StepOnlyMade(s: State, e: Event, env: Settings)
    requires OnlyMade(s.asking) && |s.asking.replies| <= 1
    ensures OnlyMade(Step(s, e, env).asking) && |Step(s, e, env).asking.replies| <= 1
  {
    if e.OnGone? {
      SettledByGone(s.asking);
    }
  }

  lemma {:induction false} RunOnlyMade(es: seq<Event>, env: Settings)
    ensures OnlyMade(After(es, env).asking) && |After(es, env).asking.replies| <= 1
  {
    if es != [] {
      RunOnlyMade(es[..|es| - 1], env);
      StepOnlyMade(After(es[..|es| - 1], env), es[|es| - 1], env);
    }
  }

  lemma CallTracked(s: State, doc: string)
    requires OnlyMade(s.asking) && |s.asking.replies| <= 1
    ensures Tracks(ConfigCalled(s, doc).asking, s.asking.asked, Outcome(s, []))
  {
    var a, next := s.asking, ConfigCalled(s, doc).asking;
    forall reply ensures (a.asked, reply) !in a.settled {
    }
    if next.settled != a.settled {
      assert next.settled[|a.settled|] == (a.asked, Outcome(s, []).value);
    }
  }

  /** The one that waits, if any, is handed a reply. */
  lemma HandedTracks(a: Asking, promise: nat, outcome: Option<Reply>, next: Asking, reply: Reply)
    requires Tracks(a, promise, outcome) && next.asked == a.asked && next.replies == []
    requires next.settled == a.settled + (if a.replies == [] then [] else Settled(a.replies[0], reply))
    ensures Tracks(next, promise, if outcome.Some? then outcome else Some(reply))
  {
    forall x ensures (promise, x) in next.settled <==> (promise, x) in a.settled || (outcome.None? && x == reply) {
      if a.replies != [] && a.replies[0].Push? {
        assert next.settled == a.settled + [(a.replies[0].promise, reply)];
      } else {
        assert next.settled == a.settled;
      }
    }
  }

  lemma ConfigTracks(s: State, doc: string, promise: nat, outcome: Option<Reply>)
    requires Tracks(s.asking, promise, outcome)
    ensures Tracks(ConfigCalled(s, doc).asking, promise, outcome)
  {
  }

  lemma StepTracks(s: State, e: Event, env: Settings, promise: nat, outcome: Option<Reply>)
    requires Tracks(s.asking, promise, outcome)
    ensures Tracks(Step(s, e, env).asking, promise, if outcome.Some? then outcome else ReplyIn(e))
  {
    match e {
      case OnConfig(doc) => ConfigTracks(s, doc, promise, outcome);
      case OnReply(reply) => HandedTracks(s.asking, promise, outcome, ReplyReceived(s.asking, reply), reply);
      case OnGone =>
        SettledByGone(s.asking);
        HandedTracks(s.asking, promise, outcome, SocketClosed(s.asking), STOPPED);
      case _ =>
    }
  }

  lemma AfterOneMore(es: seq<Event>, e: Event, env: Settings)
    ensures After(es + [e], env) == Step(After(es, env), e, env)
  {
    assert (es + [e])[..|es|] == es;
  }

  lemma OneMoreTracks(es: seq<Event>, e: Event, env: Settings, promise: nat, outcome: Option<Reply>)
    requires Tracks(After(es, env).asking, promise, outcome)
    ensures Tracks(After(es + [e], env).asking, promise, if outcome.Some? then outcome else ReplyIn(e))
  {
    AfterOneMore(es, e, env);
    StepTracks(After(es, env), e, env, promise, outcome);
  }

  lemma {:induction false} RunTracks(before: seq<Event>, doc: string, later: seq<Event>, env: Settings)
    ensures var s := After(before, env);
            Tracks(After(before + [OnConfig(doc)] + later, env).asking, s.asking.asked, Outcome(s, later))
  {
    var s, called := After(before, env), before + [OnConfig(doc)];
    if later == [] {
      AfterOneMore(before, OnConfig(doc), env);
      RunOnlyMade(before, env);
      CallTracked(s, doc);
      assert called + [] == called;
    } else {
      var first, e := later[..|later| - 1], later[|later| - 1];
      RunTracks(before, doc, first, env);
      OneMoreTracks(called + first, e, env, s.asking.asked, Outcome(s, first));
      assert called + later == called + first + [e];
    }
  }

  /** Over every history of the session: a config() call is settled with its outcome, and with nothing else. */
  lemma ConfigOutcome(before: seq<Event>, doc: string, later: seq<Event>, env: Settings)
    ensures var s := After(before, env);
            SettledWith(After(before + [OnConfig(doc)] + later, env).asking, s.asking.asked, Outcome(s, later))
  {
    RunTracks(before, doc, later, env);
  }

  // ----- What that makes of the job -----

  /** What push() looks at. */
  function AsReply(reply: Reply): J.Reply {
    if reply.Accepted? then J.Accepted else J.Rejected(reply.restart)
  }

  /**
    A push ends its job refused exactly when the session was not connected, or
    awaited another reply, or when the first to come rejects and asks for no
    restart: the daemon's reply, or the socket's end, which always does.
   */
  lemma PushRefusedExactly(job: J.State, k: nat, before: seq<Event>, later: seq<Event>, env: Settings)
    requires k < |job.queue.jobs| && job.queue.jobs[k].Pushing?
    requires Outcome(After(before, env), later).Some?
    ensures var s := After(before, env);
            var reply := AsReply(Outcome(s, later).value);
            R.PhaseOf(J.Step(job, J.OnReply(k, reply)).queue, k) == J.Settled(J.Refused) <==>
              || !s.out.writable
              || s.asking.replies != []
              || (FirstReply(later).Some? && FirstReply(later).value.Rejected? && !FirstReply(later).value.restart)
  {
    R.JobGoes(job, J.OnReply(k, AsReply(Outcome(After(before, env), later).value)), k);
  }

  /** The first config was accepted, and then the daemon asks for a reload. */
  function ReloadAsked(doc: string, id: string): seq<Event> {
    [OnConfig(doc), OnReply(Accepted([])), OnReload(Some(id))]
  }

  lemma AfterThree(a: Event, b: Event, c: Event, env: Settings)
    ensures After([a, b, c], env) == Step(Step(Step(INITIAL, a, env), b, env), c, env)
  {
    assert [a, b, c][..2] == [a, b] && [a, b][..1] == [a] && [a][..0] == [];
    assert After([a], env) == Step(INITIAL, a, env);
    assert After([a, b], env) == Step(Step(INITIAL, a, env), b, env);
  }

  /**
    A job that pushes while the answer to a reload is on its way ends refused,
    though the daemon refused nothing: whatever it replies then.
   */
  lemma ReloadInTheWay(doc: string, id: string, job: J.State, k: nat, later: seq<Event>, env: Settings)
    requires k < |job.queue.jobs| && job.queue.jobs[k].Pushing?
    ensures var outcome := Outcome(After(ReloadAsked(doc, id), env), later);
            && outcome == Some(PENDING)
            && R.PhaseOf(J.Step(job, J.OnReply(k, AsReply(outcome.value))).queue, k) == J.Settled(J.Refused)
  {
    AfterThree(OnConfig(doc), OnReply(Accepted([])), OnReload(Some(id)), env);
    var s := After(ReloadAsked(doc, id), env);
    assert s.out.writable && s.asking.replies == [Answer(id, doc)];
    R.JobGoes(job, J.OnReply(k, AsReply(PENDING)), k);
  }
}
