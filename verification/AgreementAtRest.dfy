/**
  When a worker of packages/php/src/Worker.php takes its document for pushed:
  exactly while nothing upset the last config it sent. A worker that does not
  sends nothing by itself, so a rejected document stays out until the daemon
  says something more.
 */
module AgreementAtRest {
  import opened Wrappers
  import opened Documents
  import opened Worker
  import opened Agreement

  /** The worker gives its session a config to send. */
  predicate SendsConfig(s: System, e: Event) {
    Enabled(s, e) &&
    match e
    case WorkerHandles(starts) => Pushes(Received(s.w, s.batch[0], starts).sent) != []
    case ReloadEnds(read) => Pushes(ReloadFinished(s.w, read).sent) != []
    case _ => false
  }

  /** A config is rejected, or the copy hears that it is active while a config is unanswered. */
  predicate Upsets(s: System, e: Event) {
    e.WorkerHandles? && s.batch != []
    && (s.batch[0].ConfigError? || (s.batch[0].Role? && s.w.conn.active && s.w.pending != []))
  }

  predicate Served(w: State) {
    w.attached && !w.leaving
  }

  /** One of the first n events sent a config on the present session, and none after it upset that. */
  predicate SentAndKept(states: seq<System>, events: seq<Event>, n: nat)
    requires n <= |events| <= |states|
  {
    n > 0 &&
    (SendsConfig(states[n - 1], events[n - 1])
     || (SentAndKept(states, events, n - 1) && !Upsets(states[n - 1], events[n - 1]) && !events[n - 1].Attaches?))
  }

  // ----- One step -----

  lemma AppliedPushed(w: State)
    requires DocumentOf(w.now).Some?
    ensures var effect := Applied(w);
            if Pushes(effect.sent) != [] then effect.state.pushed.Some? else effect.state.pushed == w.pushed
  {
  }

  lemma RolePushed(w: State)
    requires DocumentOf(w.now).Some? && Served(w) && Served(RoleTaken(w).state)
    ensures var effect := RoleTaken(w);
            if Pushes(effect.sent) != [] then effect.state.pushed.Some?
            else if w.conn.active then w.pending != [] && effect.state.pushed.None?
            else effect.state.pushed == w.pushed
  {
  }

  lemma ReloadPushed(w: State, read: Option<Definition>)
    requires w.reloading.Some?
    ensures var effect := ReloadFinished(w, read);
            if Pushes(effect.sent) != [] then effect.state.pushed.Some? else effect.state.pushed == w.pushed
  {
    AnswersPush(w.reloading.value.ids, read);
  }

  lemma ErrorPushesNothing(id: string)
    ensures Pushes([ReloadError(id)]) == []
  {
    assert [ReloadError(id)][1..] == [];
  }

  lemma HandledPushed(w: State, m: FromDaemon, starts: bool)
    requires DocumentOf(w.now).Some? && Served(w) && Served(Received(w, m, starts).state)
    ensures var effect := Received(w, m, starts);
            if Pushes(effect.sent) != [] then
              effect.state.pushed.Some? && !m.ConfigError? && !(m.Role? && w.conn.active && w.pending != [])
            else if m.ConfigError? || (m.Role? && w.conn.active && w.pending != []) then effect.state.pushed.None?
            else effect.state.pushed == w.pushed
  {
    if m.Reload? {
      ErrorPushesNothing(m.id);
    } else if m.Role? {
      RolePushed(w);
    } else if m.Alone? {
      AppliedPushed(w);
    }
  }

  /** What a step that leaves the copy served does to pushed. */
  lemma StepPushed(s: System, e: Event)
    requires Enabled(s, e) && Served(Do(s, e).w) && !e.Attaches?
    ensures Served(s.w)
    ensures SendsConfig(s, e) ==> Do(s, e).w.pushed.Some? && !Upsets(s, e)
    ensures Upsets(s, e) ==> Do(s, e).w.pushed.None?
    ensures !SendsConfig(s, e) && !Upsets(s, e) ==> Do(s, e).w.pushed == s.w.pushed
  {
    if e.WorkerHandles? {
      assert Do(s, e).w == Received(s.w, s.batch[0], e.starts).state;
      assert Served(s.w) by {
        ServedBefore(s.w, s.batch[0], e.starts);
      }
      HandledPushed(s.w, s.batch[0], e.starts);
    } else if e.ReloadEnds? {
      ReloadPushed(s.w, e.read);
    }
  }

  lemma ServedBefore(w: State, m: FromDaemon, starts: bool)
    requires DocumentOf(w.now).Some? && Served(Received(w, m, starts).state)
    ensures Served(w)
  {
  }

  // ----- Every run -----

  /** Whether pushed is set after a step, from whether it was set before. */
  lemma StepPushedExactly(s: System, e: Event)
    requires Enabled(s, e) && Served(Do(s, e).w)
    ensures !e.Attaches? ==> Served(s.w)
    ensures Do(s, e).w.pushed.Some? <==> SendsConfig(s, e) || (s.w.pushed.Some? && !Upsets(s, e) && !e.Attaches?)
  {
    if !e.Attaches? {
      StepPushed(s, e);
    }
  }

  lemma PushedOneMore(states: seq<System>, events: seq<Event>, n: nat)
    requires n < |events| < |states| && Enabled(states[n], events[n])
    requires states[n + 1] == Do(states[n], events[n]) && Served(states[n + 1].w)
    requires Served(states[n].w) ==> (states[n].w.pushed.Some? <==> SentAndKept(states, events, n))
    ensures states[n + 1].w.pushed.Some? <==> SentAndKept(states, events, n + 1)
  {
    StepPushedExactly(states[n], events[n]);
  }

  lemma {:induction false} PushedExactly(states: seq<System>, events: seq<Event>, n: nat)
    requires IsRun(states, events) && n <= |events|
    ensures Served(states[n].w) ==> (states[n].w.pushed.Some? <==> SentAndKept(states, events, n))
  {
    if n > 0 {
      PushedExactly(states, events, n - 1);
      if Served(states[n].w) {
        PushedOneMore(states, events, n - 1);
      }
    }
  }

  /**
    On an open session of a copy that stays, once all its configs are answered:
    it takes its present document for pushed, and RunWisp runs that document
    from this copy, if and only if a config was sent on this session and since
    the last one no config was rejected and no role made the copy active while
    one was unanswered.
   */
  lemma AtRestExactly(states: seq<System>, events: seq<Event>)
    requires IsRun(states, events)
    requires var s := states[|events|]; s.Open() && !s.w.leaving && s.w.pending == []
    ensures var s := states[|events|];
            && (SentAndKept(states, events, |events|) ==>
                  s.w.pushed == DocumentOf(s.w.now) && s.applied == s.w.pushed && s.active)
            && (!SentAndKept(states, events, |events|) ==> s.w.pushed.None?)
  {
    PushedExactly(states, events, |events|);
    ConfigsAgree(states, events);
  }

  /** The worker sends a config only when it handles a role or alone message, or when a reload it was asked for ends. */
  lemma SendsOnlyWhenTold(s: System, e: Event)
    requires Enabled(s, e) && SendsConfig(s, e)
    ensures e.ReloadEnds? || (e.WorkerHandles? && (s.batch[0].Role? || s.batch[0].Alone?))
  {
    if e.WorkerHandles? && s.batch[0].Reload? {
      ErrorPushesNothing(s.batch[0].id);
    }
  }

  // ----- A rejected config -----

  /** A session opens, and the copy hears that it is the active one. */
  const ACTIVATES: seq<Event> := [Attaches(false, true, None), DaemonSays(Role(true, false)), WorkerReads(1), WorkerHandles(true)]

  /** The daemon reads a config, rejects it, and says so. */
  const REJECTS: seq<Event> := [DaemonReads, DaemonDecides(false, false), DaemonAnswers, WorkerReads(1), WorkerHandles(true)]

  /** The state once the new session's copy sent its config. */
  function Sending(s: System): System
    requires DocumentOf(s.w.now).Some?
  {
    var doc := DocumentOf(s.w.now);
    var w := State(s.w.now, false, doc, [None], false, false, true, Conn(s.w.conn.id + 1, true, false, false), s.w.reloading);
    System(w, [Push(doc.value, None)], [], [], true, false, [], [], None, [], None, [], [], [])
  }

  lemma AfterTwo(s: System, a: Event, b: Event)
    requires Enabled(s, a) && Enabled(Do(s, a), b)
    ensures After(s, [a, b]) == Some(Do(Do(s, a), b))
  {
    AfterOne(s, a, [b]);
    AfterOne(Do(s, a), b, []);
  }

  /** The state once the new session has brought the role. */
  function Told(s: System): System {
    System(Attached(s.w, false), [], [Role(true, false)], [], true, false, [], [], None, [], None, [], [], [])
  }

  lemma HearsRole(s: System)
    requires DocumentOf(s.w.now).Some? && !s.w.leaving && !s.w.standby
    ensures After(Told(s), [WorkerReads(1), WorkerHandles(true)]) == Some(Sending(s))
  {
    var told := Told(s);
    var read := Do(told, WorkerReads(1));
    assert [Role(true, false)][..1] == [Role(true, false)] && [Role(true, false)][..0] == [];
    assert Parsed(told.w.conn, [Role(true, false)]) == told.w.conn.(active := true, alone := false);
    assert IdsOf([Push(DocumentOf(s.w.now).value, None)]) == [];
    assert read.batch == [Role(true, false)] && read.down == [] && read.up == [] && read.given == [];
    assert Received(read.w, Role(true, false), true).sent == [Push(DocumentOf(s.w.now).value, None)];
    assert Do(read, WorkerHandles(true)) == Sending(s);
    AfterTwo(told, WorkerReads(1), WorkerHandles(true));
  }

  lemma Activated(s: System)
    requires Initial(s)
    ensures After(s, ACTIVATES) == Some(Sending(s))
  {
    AfterTwo(s, Attaches(false, true, None), DaemonSays(Role(true, false)));
    assert Do(Do(s, Attaches(false, true, None)), DaemonSays(Role(true, false))) == Told(s);
    HearsRole(s);
    assert ACTIVATES[..2] == [Attaches(false, true, None), DaemonSays(Role(true, false))];
    assert ACTIVATES[2..] == [WorkerReads(1), WorkerHandles(true)];
    AfterConcat(s, ACTIVATES[..2], ACTIVATES[2..]);
    assert ACTIVATES == ACTIVATES[..2] + ACTIVATES[2..];
  }

  /** The state once the daemon has written its rejection. */
  function Refused(s: System): System
    requires DocumentOf(s.w.now).Some?
  {
    var v := Verdict(DocumentOf(s.w.now).value, false);
    Sending(s).(up := [], down := [ConfigError(false)], decided := [v], last := Some(v))
  }

  lemma Rejected(s: System)
    requires DocumentOf(s.w.now).Some?
    ensures After(Sending(s), REJECTS[..3]) == Some(Refused(s))
  {
    var heard := Do(Sending(s), DaemonReads);
    assert heard.chain == [DocumentOf(s.w.now).value] && heard.up == [];
    AfterOne(Sending(s), DaemonReads, [DaemonDecides(false, false), DaemonAnswers]);
    AfterTwo(heard, DaemonDecides(false, false), DaemonAnswers);
    assert Do(Do(heard, DaemonDecides(false, false)), DaemonAnswers) == Refused(s);
    assert REJECTS[..3] == [DaemonReads] + [DaemonDecides(false, false), DaemonAnswers];
  }

  lemma HearsRejection(s: System)
    requires DocumentOf(s.w.now).Some?
    ensures var t := Refused(s);
            After(t, REJECTS[3..])
              == Some(t.(w := t.w.(pushed := None, pending := []), down := [], decided := []))
  {
    var t := Refused(s);
    assert [ConfigError(false)][..1] == [ConfigError(false)] && [ConfigError(false)][..0] == [];
    assert Parsed(t.w.conn, [ConfigError(false)]) == t.w.conn;
    AfterTwo(t, WorkerReads(1), WorkerHandles(true));
    assert REJECTS[3..] == [WorkerReads(1), WorkerHandles(true)];
  }

  /**
    A run after which the active copy's session is open and quiet, RunWisp runs
    none of its documents, and none is under way: until the daemon says more,
    the copy sends nothing.
   */
  lemma RejectionStays(s: System) returns (states: seq<System>)
    requires Initial(s)
    ensures IsRun(states, ACTIVATES + REJECTS)
    ensures var t := states[|ACTIVATES + REJECTS|];
            && t.Open() && t.w.conn.active && t.active && !t.w.leaving
            && t.w.pending == [] && t.up == [] && t.down == [] && t.batch == []
            && t.w.pushed.None? && t.applied.None?
  {
    Activated(s);
    Rejected(s);
    HearsRejection(s);
    AfterConcat(Sending(s), REJECTS[..3], REJECTS[3..]);
    assert REJECTS == REJECTS[..3] + REJECTS[3..];
    AfterConcat(s, ACTIVATES, REJECTS);
    states := RunOf(s, ACTIVATES + REJECTS);
  }
}
