/**
  packages/js/src/session.ts, the configs: each config() call is settled once,
  by the reply to its own config, and a reload is answered with the config the
  copy sent last.
 */
module SessionReplies {
  import opened Wrappers
  import opened SessionSteps
  import opened SessionRuns
  import opened Sequences

  // ----- Each call is settled once -----

  function Times(settled: seq<(nat, Reply)>, promise: nat): nat {
    if settled == [] then 0
    else Times(settled[..|settled| - 1], promise) + if settled[|settled| - 1].0 == promise then 1 else 0
  }

  function Waits(replies: seq<Asker>, promise: nat): nat {
    if replies == [] then 0
    else Waits(replies[..|replies| - 1], promise) + if WaitsFor(replies[|replies| - 1], promise) then 1 else 0
  }

  predicate WaitsFor(asker: Asker, promise: nat) {
    asker.Push? && asker.promise == promise
  }

  lemma {:induction false} TimesConcat(a: seq<(nat, Reply)>, b: seq<(nat, Reply)>, promise: nat)
    ensures Times(a + b, promise) == Times(a, promise) + Times(b, promise)
  {
    if b == [] {
      assert a + b == a;
    } else {
      var before, last := b[..|b| - 1], b[|b| - 1];
      TimesConcat(a, before, promise);
      assert (a + b)[..|a + b| - 1] == a + before;
      assert (a + b)[|a + b| - 1] == last;
    }
  }

  lemma TimesSettled(asker: Asker, reply: Reply, promise: nat)
    ensures Times(Settled(asker, reply), promise) == Waits([asker], promise)
    ensures Waits([asker], promise) == if WaitsFor(asker, promise) then 1 else 0
  {
    assert [asker][..0] == [] && Waits([], promise) == 0;
    var one := [(if asker.Push? then asker.promise else 0, reply)];
    assert one[..0] == [] && Times([], promise) == 0;
  }

  /** config() lets one config wait for its reply, and none once the connection has closed. */
  ghost predicate OneWaits(s: State) {
    && |s.asking.replies| <= 1
    && (s.closed ==> !s.out.writable && forall asker :: asker in s.asking.replies ==> asker.Answer?)
  }

  /** A call made is waiting or settled, and only one of them, once. */
  ghost predicate OnceEach(a: Asking, promise: nat) {
    Times(a.settled, promise) + Waits(a.replies, promise) == if promise < a.asked then 1 else 0
  }

  lemma RefusedOnce(a: Asking, reply: Reply, promise: nat)
    requires OnceEach(a, promise)
    ensures OnceEach(Refused(a, reply), promise)
  {
    var one := [(a.asked, reply)];
    TimesConcat(a.settled, one, promise);
    assert one[..0] == [] && Times([], promise) == 0;
  }

  lemma ShiftedOnce(a: Asking, reply: Reply, promise: nat)
    requires OnceEach(a, promise) && |a.replies| == 1
    ensures OnceEach(ReplyReceived(a, reply), promise)
    ensures OnceEach(SocketClosed(a), promise)
  {
    var asker := a.replies[0];
    assert a.replies == [asker] && a.replies[1..] == [];
    assert [asker][..0] == [] && SettledAll([], STOPPED) == [];
    assert SettledAll([asker], STOPPED) == [] + Settled(asker, STOPPED) == Settled(asker, STOPPED);
    TimesSettled(asker, reply, promise);
    TimesSettled(asker, STOPPED, promise);
    TimesConcat(a.settled, Settled(asker, reply), promise);
    TimesConcat(a.settled, Settled(asker, STOPPED), promise);
  }

  lemma ConfigOnce(s: State, doc: string, promise: nat)
    requires OneWaits(s) && OnceEach(s.asking, promise)
    ensures OnceEach(ConfigCalled(s, doc).asking, promise)
  {
    RefusedOnce(s.asking, NOT_CONNECTED, promise);
    RefusedOnce(s.asking, PENDING, promise);
    TimesSettled(Push(s.asking.asked, doc), PENDING, promise);
    assert Waits([], promise) == 0;
  }

  lemma ReloadOnce(s: State, id: string, env: Settings, promise: nat)
    requires OneWaits(s) && OnceEach(s.asking, promise)
    ensures OnceEach(ReloadReceived(s, id, env).asking, promise)
  {
    if s.asking.lastDoc.Some? && s.asking.replies == [] {
      assert [] + [Answer(id, s.asking.lastDoc.value)] == [Answer(id, s.asking.lastDoc.value)];
      TimesSettled(Answer(id, s.asking.lastDoc.value), PENDING, promise);
      assert Waits([], promise) == 0;
    }
  }

  lemma StepOnce(s: State, e: Event, env: Settings, promise: nat)
    requires OneWaits(s) && OnceEach(s.asking, promise)
    ensures OnceEach(Step(s, e, env).asking, promise)
  {
    if e.OnConfig? {
      ConfigOnce(s, e.doc, promise);
    } else if e.OnReload? && e.id.Some? {
      ReloadOnce(s, e.id.value, env, promise);
    } else if e.OnReply? {
      if s.asking.replies != [] {
        ShiftedOnce(s.asking, e.reply, promise);
      }
    } else if e.OnGone? {
      if s.asking.replies == [] {
        assert s.asking.settled + [] == s.asking.settled;
      } else {
        ShiftedOnce(s.asking, STOPPED, promise);
      }
    }
  }

  lemma StepOneWaits(s: State, e: Event, env: Settings)
    requires OneWaits(s)
    ensures OneWaits(Step(s, e, env))
  {
    if e.OnExit? {
      SentAllFlags(s.out, Reports(s.dropped, Some(e.run)), env.size);
    } else if e.OnDrain? {
      SentAllFlags(s.out, Reports(s.dropped, None), env.size);
    }
  }

  function Asked(es: seq<Event>): nat {
    if es == [] then 0 else Asked(es[..|es| - 1]) + if es[|es| - 1].OnConfig? then 1 else 0
  }

  lemma StepAsked(s: State, e: Event, env: Settings)
    ensures Step(s, e, env).asking.asked == s.asking.asked + if e.OnConfig? then 1 else 0
  {
  }

  lemma {:induction false} RunOnce(es: seq<Event>, env: Settings, promise: nat)
    ensures OneWaits(After(es, env)) && OnceEach(After(es, env).asking, promise)
    ensures After(es, env).asking.asked == Asked(es)
  {
    if es == [] {
      assert Times([], promise) == 0 && Waits([], promise) == 0;
    } else {
      var before, e := es[..|es| - 1], es[|es| - 1];
      RunOnce(before, env, promise);
      StepAsked(After(before, env), e, env);
      StepOneWaits(After(before, env), e, env);
      StepOnce(After(before, env), e, env, promise);
    }
  }

  lemma {:induction false} NoneWaits(replies: seq<Asker>, promise: nat)
    requires forall asker :: asker in replies ==> asker.Answer?
    ensures Waits(replies, promise) == 0
  {
    if replies != [] {
      assert replies[|replies| - 1] in replies;
      NoneWaits(replies[..|replies| - 1], promise);
    }
  }

  /**
    However calls, replies, reloads and the socket's end fall: no call is
    settled twice or before it is made, and once the connection has closed
    every call made so far has been settled.
   */
  lemma EachCallSettlesOnce(es: seq<Event>, env: Settings, promise: nat)
    ensures Times(After(es, env).asking.settled, promise) <= 1
    ensures promise >= Asked(es) ==> Times(After(es, env).asking.settled, promise) == 0
    ensures After(es, env).closed && promise < Asked(es) ==> Times(After(es, env).asking.settled, promise) == 1
  {
    RunOnce(es, env, promise);
    if After(es, env).closed {
      NoneWaits(After(es, env).asking.replies, promise);
    }
  }

  function RepliesIn(es: seq<Event>): nat {
    if es == [] then 0 else RepliesIn(es[..|es| - 1]) + if es[|es| - 1].OnReply? then 1 else 0
  }

  /** The daemon's replies are counted, those to nobody too. */
  lemma {:induction false} RepliesAreCounted(es: seq<Event>, env: Settings)
    ensures After(es, env).asking.answered == RepliesIn(es)
  {
    if es != [] {
      RepliesAreCounted(es[..|es| - 1], env);
    }
  }

  // ----- Each reply reaches the config it answers -----

  function IsConfig(): Message -> bool {
    (m: Message) => m.Config?
  }

  function ConfigsOf(ms: seq<Message>): seq<Message> {
    Filter(ms, IsConfig())
  }

  function MessageOf(asker: Asker): Message {
    if asker.Push? then Config(asker.doc, None) else Config(asker.doc, Some(asker.id))
  }

  /** A daemon answers each config it got once, in order: this one is not answered yet. */
  predicate Awaited(s: State) {
    !s.closed && s.asking.answered < |ConfigsOf(s.out.written)|
  }

  /** The daemon never replies when no config waits for its answer. */
  predicate AnswersInOrder(es: seq<Event>, env: Settings) {
    es == [] || (AnswersInOrder(es[..|es| - 1], env) &&
                 (es[|es| - 1].OnReply? ==> Awaited(After(es[..|es| - 1], env))))
  }

  predicate NoConfig(ms: seq<Message>) {
    forall m :: m in ms ==> !m.Config?
  }

  /** What the written configs still to be answered are, against who waits. */
  ghost predicate Matched(configs: seq<Message>, a: Asking, writable: bool) {
    && a.answered <= |configs| <= a.answered + |a.replies|
    && (writable ==> |configs| == a.answered + |a.replies|)
    && (a.answered < |configs| ==> a.replies != [] && configs[a.answered] == MessageOf(a.replies[0]))
  }

  lemma {:induction false} NoConfigsOf(ms: seq<Message>)
    requires NoConfig(ms)
    ensures ConfigsOf(ms) == []
  {
    if ms != [] {
      NoConfigsOf(ms[..|ms| - 1]);
    }
  }

  lemma FlushedConfigs(o: Outbox)
    requires NoConfig(o.batch)
    ensures ConfigsOf(Flushed(o).written) == ConfigsOf(o.written)
  {
    NoConfigsOf(o.batch);
    FilterConcat(o.written, o.batch, IsConfig());
    assert ConfigsOf(o.written) + [] == ConfigsOf(o.written);
  }

  lemma SentConfigs(o: Outbox, m: Message, size: Message -> nat)
    requires NoConfig(o.batch) && !m.Config?
    ensures NoConfig(Sent(o, m, size).batch)
    ensures ConfigsOf(Sent(o, m, size).written) == ConfigsOf(o.written)
  {
    FlushedConfigs(o.(batch := o.batch + [m], said := o.said + [m]));
  }

  lemma {:induction false} SentAllConfigs(o: Outbox, ms: seq<Message>, size: Message -> nat)
    requires NoConfig(o.batch) && NoConfig(ms)
    ensures NoConfig(SentAll(o, ms, size).batch)
    ensures ConfigsOf(SentAll(o, ms, size).written) == ConfigsOf(o.written)
  {
    if ms != [] {
      SentAllConfigs(o, ms[..|ms| - 1], size);
      SentConfigs(SentAll(o, ms[..|ms| - 1], size), ms[|ms| - 1], size);
    }
  }

  lemma {:induction false} ReportsNoConfig(dropped: seq<Drop>, only: Option<string>)
    ensures NoConfig(Reports(dropped, only))
  {
    if dropped != [] {
      ReportsNoConfig(dropped[..|dropped| - 1], only);
    }
  }

  lemma WrittenNowConfigs(o: Outbox, m: Message)
    requires NoConfig(o.batch) && m.Config?
    ensures ConfigsOf(WrittenNow(o, m).written) == ConfigsOf(o.written) + if o.writable then [m] else []
  {
    FlushedConfigs(o);
    assert (Flushed(o).written + [m])[..|Flushed(o).written|] == Flushed(o).written;
    assert ConfigsOf(o.written) + [] == ConfigsOf(o.written);
  }

  /** Only config() and a reload write configs. */
  lemma OthersWriteNone(s: State, e: Event, env: Settings)
    requires NoConfig(s.out.batch) && !e.OnConfig? && !e.OnReload?
    ensures NoConfig(Step(s, e, env).out.batch)
    ensures ConfigsOf(Step(s, e, env).out.written) == ConfigsOf(s.out.written)
  {
    FlushedConfigs(s.out);
    if e.OnOutput? {
      SentConfigs(s.out, Output(e.run, e.stream, e.line, e.partial), env.size);
    } else if e.OnExit? {
      var reports := Reports(s.dropped, Some(e.run));
      ReportsNoConfig(s.dropped, Some(e.run));
      SentAllConfigs(s.out, reports, env.size);
      SentConfigs(SentAll(s.out, reports, env.size), Exit(e.run, e.code, e.skipped), env.size);
    } else if e.OnLeave? {
      SentConfigs(s.out, Leave, env.size);
    } else if e.OnDrain? {
      ReportsNoConfig(s.dropped, None);
      SentAllConfigs(s.out, Reports(s.dropped, None), env.size);
    }
  }

  /** What is kept between the configs on the wire and the replies to come. */
  ghost predicate Paired(s: State) {
    NoConfig(s.out.batch) && (!s.closed ==> Matched(ConfigsOf(s.out.written), s.asking, s.out.writable))
  }

  lemma ConfigPairs(s: State, doc: string)
    requires Paired(s) && OneWaits(s)
    ensures Paired(ConfigCalled(s, doc))
  {
    if s.out.writable && s.asking.replies == [] {
      WrittenNowConfigs(s.out, Config(doc, None));
    }
  }

  lemma ReloadPairs(s: State, id: string, env: Settings)
    requires Paired(s) && OneWaits(s)
    ensures Paired(ReloadReceived(s, id, env))
  {
    if s.asking.lastDoc.None? || s.asking.replies != [] {
      SentConfigs(s.out, ReloadError(id), env.size);
    } else {
      WrittenNowConfigs(s.out, Config(s.asking.lastDoc.value, Some(id)));
    }
  }

  lemma StepPairs(s: State, e: Event, env: Settings)
    requires Paired(s) && OneWaits(s) && (e.OnReply? ==> Awaited(s))
    ensures Paired(Step(s, e, env))
  {
    if e.OnConfig? {
      ConfigPairs(s, e.doc);
    } else if e.OnReload? {
      if e.id.Some? {
        ReloadPairs(s, e.id.value, env);
      }
    } else {
      OthersWriteNone(s, e, env);
      StepOneWaits(s, e, env);
      if e.OnExit? {
        SentAllFlags(s.out, Reports(s.dropped, Some(e.run)), env.size);
      } else if e.OnDrain? {
        SentAllFlags(s.out, Reports(s.dropped, None), env.size);
      }
    }
  }

  lemma {:induction false} RunPairs(es: seq<Event>, env: Settings)
    requires AnswersInOrder(es, env)
    ensures Paired(After(es, env)) && OneWaits(After(es, env))
  {
    if es != [] {
      var before, e := es[..|es| - 1], es[|es| - 1];
      RunPairs(before, env);
      RunOnce(before, env, 0);
      StepOneWaits(After(before, env), e, env);
      StepPairs(After(before, env), e, env);
    }
  }

  /**
    With a daemon that answers in order, its k-th reply goes to whoever sent the
    k-th config it got, and at most one config awaits an answer.
   */
  lemma RepliesReachTheirConfig(es: seq<Event>, env: Settings, reply: Reply)
    requires AnswersInOrder(es + [OnReply(reply)], env)
    ensures var s, next := After(es, env), After(es + [OnReply(reply)], env);
            var configs := ConfigsOf(s.out.written);
            && |configs| == s.asking.answered + 1
            && |s.asking.replies| == 1 && MessageOf(s.asking.replies[0]) == configs[s.asking.answered]
            && next.asking.settled == s.asking.settled + Settled(s.asking.replies[0], reply)
            && next.asking.replies == []
  {
    var all := es + [OnReply(reply)];
    assert all[..|all| - 1] == es;
    RunPairs(es, env);
  }

  // ----- Reloads -----

  function LastDoc(ms: seq<Message>): Option<string> {
    if ms == [] then None
    else
      var m := ms[|ms| - 1];
      if m.Config? then Some(m.doc) else LastDoc(ms[..|ms| - 1])
  }

  /** A config that answers a reload is the one before it again. */
  ghost predicate RepeatsLast(ms: seq<Message>) {
    forall i :: 0 <= i < |ms| && ms[i].Config? && ms[i].reload.Some? ==> LastDoc(ms[..i]) == Some(ms[i].doc)
  }

  function AnswersTo(ms: seq<Message>): seq<string> {
    if ms == [] then []
    else
      var m, before := ms[|ms| - 1], AnswersTo(ms[..|ms| - 1]);
      if m.ReloadError? then before + [m.id]
      else if m.Config? && m.reload.Some? then before + [m.reload.value]
      else before
  }

  /** The ids the daemon asked with; a message whose id is no string asks nothing. */
  function ReloadsOf(es: seq<Event>): seq<string> {
    if es == [] then []
    else
      var e, before := es[|es| - 1], ReloadsOf(es[..|es| - 1]);
      if e.OnReload? && e.id.Some? then before + [e.id.value] else before
  }

  ghost predicate ReloadsSound(said: seq<Message>, lastDoc: Option<string>) {
    RepeatsLast(said) && LastDoc(said) == lastDoc
  }

  lemma SaysOneMore(said: seq<Message>, m: Message, lastDoc: Option<string>)
    requires ReloadsSound(said, lastDoc)
    requires m.Config? && m.reload.Some? ==> lastDoc == Some(m.doc)
    ensures ReloadsSound(said + [m], if m.Config? then Some(m.doc) else lastDoc)
    ensures AnswersTo(said + [m]) == AnswersTo(said) +
            if m.ReloadError? then [m.id] else if m.Config? && m.reload.Some? then [m.reload.value] else []
  {
    var more := said + [m];
    assert more[..|said|] == said;
    assert AnswersTo(said) + [] == AnswersTo(said);
    forall i | 0 <= i < |more| && more[i].Config? && more[i].reload.Some?
      ensures LastDoc(more[..i]) == Some(more[i].doc)
    {
      if i < |said| {
        assert more[..i] == said[..i];
      }
    }
  }

  lemma {:induction false} SaysOthers(said: seq<Message>, ms: seq<Message>, lastDoc: Option<string>)
    requires ReloadsSound(said, lastDoc) && forall m :: m in ms ==> !m.Config? && !m.ReloadError?
    ensures ReloadsSound(said + ms, lastDoc) && AnswersTo(said + ms) == AnswersTo(said)
  {
    if ms == [] {
      assert said + ms == said;
    } else {
      var before, m := ms[..|ms| - 1], ms[|ms| - 1];
      SaysOthers(said, before, lastDoc);
      SaysOneMore(said + before, m, lastDoc);
      assert ms == before + [m];
      Assoc(said, before, [m]);
    }
  }

  lemma {:induction false} ReportsOnly(dropped: seq<Drop>, only: Option<string>)
    ensures forall m :: m in Reports(dropped, only) ==> m.DropReport?
  {
    if dropped != [] {
      ReportsOnly(dropped[..|dropped| - 1], only);
    }
  }

  /** Only a config or a reload is answered with a config or an error about one. */
  lemma SaysNone(s: State, e: Event, env: Settings)
    requires !(e.OnReload? && e.id.Some?) && (e.OnConfig? ==> Says(s, e, env) == [])
    ensures forall m :: m in Says(s, e, env) ==> !m.Config? && !m.ReloadError?
    ensures Step(s, e, env).asking.lastDoc == s.asking.lastDoc
  {
    if e.OnExit? {
      ReportsOnly(s.dropped, Some(e.run));
    } else if e.OnDrain? {
      ReportsOnly(s.dropped, None);
    }
  }

  lemma SaysOne(s: State, e: Event, env: Settings)
    requires (e.OnReload? && e.id.Some?) || (e.OnConfig? && Says(s, e, env) != [])
    ensures |Says(s, e, env)| == 1 && (e.OnConfig? ==> Says(s, e, env)[0] == Config(e.doc, None))
    ensures var m := Says(s, e, env)[0];
            && (m.Config? && m.reload.Some? ==> s.asking.lastDoc == Some(m.doc))
            && Step(s, e, env).asking.lastDoc == (if m.Config? then Some(m.doc) else s.asking.lastDoc)
            && (e.OnReload? ==> m == ReloadError(e.id.value) || (m.Config? && m.reload == e.id))
  {
  }

  lemma StepReloads(s: State, e: Event, env: Settings)
    requires ReloadsSound(s.out.said, s.asking.lastDoc) && InOrder(s.out)
    ensures ReloadsSound(Step(s, e, env).out.said, Step(s, e, env).asking.lastDoc)
    ensures AnswersTo(Step(s, e, env).out.said) ==
            AnswersTo(s.out.said) + if e.OnReload? && e.id.Some? then [e.id.value] else []
  {
    var said := Says(s, e, env);
    StepInOrder(s, e, env);
    if (e.OnConfig? && said != []) || (e.OnReload? && e.id.Some?) {
      SaysOne(s, e, env);
      SaysOneMore(s.out.said, said[0], s.asking.lastDoc);
      assert said == [said[0]];
    } else {
      SaysNone(s, e, env);
      SaysOthers(s.out.said, said, s.asking.lastDoc);
    }
  }

  /**
    Each reload is answered once, in the order asked: with an error, or with
    the config this copy sent last, unchanged.
   */
  lemma {:induction false} ReloadsRepeatTheLastConfig(es: seq<Event>, env: Settings)
    ensures var s := After(es, env);
            && AnswersTo(s.out.said) == ReloadsOf(es)
            && RepeatsLast(s.out.said) && LastDoc(s.out.said) == s.asking.lastDoc
  {
    if es != [] {
      var before, e := es[..|es| - 1], es[|es| - 1];
      ReloadsRepeatTheLastConfig(before, env);
      NothingLostOnTheWay(before, env);
      StepReloads(After(before, env), e, env);
      assert ReloadsOf(before) + [] == ReloadsOf(before);
    }
  }

  // ----- What every event keeps -----

  ghost predicate Sound(s: State, env: Settings) {
    && InOrder(s.out) && FlushDue(s.out, env.size)
    && DropsSound(s.dropped) && (s.dropped != [] ==> s.listeners > 0)
    && OneWaits(s) && ReloadsSound(s.out.said, s.asking.lastDoc)
  }

  lemma StepSound(s: State, e: Event, env: Settings)
    requires Sound(s, env)
    ensures Sound(Step(s, e, env), env)
  {
    StepInOrder(s, e, env);
    StepFlushDue(s, e, env);
    StepDrops(s, e, env);
    StepOneWaits(s, e, env);
    StepReloads(s, e, env);
  }
}
