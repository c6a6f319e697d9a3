/**
  What a worker of packages/php/src/Worker.php makes of the roles it hears: when
  it restarts RunWisp or gives its session up, and when it sends its own config.
 */
module WorkerRoles {
  import opened Wrappers
  import opened Documents
  import opened Worker
  import opened Agreement
  import AtRest = AgreementAtRest

  // ----- What was said of this copy -----

  /** The messages read on the present session. */
  function ReadOn(states: seq<System>, events: seq<Event>, n: nat): seq<FromDaemon>
    requires n <= |events| <= |states|
  {
    if n == 0 then []
    else
      match events[n - 1]
      case Attaches(_, _, _) => []
      case WorkerReads(k) => ReadOn(states, events, n - 1) + (if k <= |states[n - 1].down| then states[n - 1].down[..k] else [])
      case _ => ReadOn(states, events, n - 1)
  }

  /** The last role makes this copy the active one. */
  ghost predicate SaidActive(ms: seq<FromDaemon>) {
    exists i :: 0 <= i < |ms| && ms[i].Role? && ms[i].active && forall j :: i < j < |ms| ==> !ms[j].Role?
  }

  /** The daemon said, and no role took it back, that no other copy has runs. */
  ghost predicate SaidAlone(ms: seq<FromDaemon>) {
    exists i :: 0 <= i < |ms| && (ms[i].Alone? || (ms[i].Role? && ms[i].alone)) && forall j :: i < j < |ms| ==> !ms[j].Role?
  }

  lemma SaidOneMore(ms: seq<FromDaemon>, m: FromDaemon)
    ensures SaidActive(ms + [m]) <==> if m.Role? then m.active else SaidActive(ms)
    ensures SaidAlone(ms + [m]) <==> if m.Role? then m.alone else m.Alone? || SaidAlone(ms)
  {
    var more := ms + [m];
    assert more[|ms|] == m && forall i :: 0 <= i < |ms| ==> more[i] == ms[i];
  }

  lemma {:induction false} ParsedSays(conn: Conn, before: seq<FromDaemon>, ms: seq<FromDaemon>)
    requires conn.active == SaidActive(before) && conn.alone == SaidAlone(before)
    ensures var after := Parsed(conn, ms); after.active == SaidActive(before + ms) && after.alone == SaidAlone(before + ms)
  {
    if ms == [] {
      assert before + ms == before;
    } else {
      var first, m := ms[..|ms| - 1], ms[|ms| - 1];
      ParsedSays(conn, before, first);
      SaidOneMore(before + first, m);
      assert before + ms == before + first + [m];
    }
  }

  lemma HandledSame(w: State, m: FromDaemon, starts: bool)
    requires DocumentOf(w.now).Some?
    ensures var conn := Received(w, m, starts).state.conn; conn.active == w.conn.active && conn.alone == w.conn.alone
  {
  }

  lemma OthersSame(s: System, e: Event)
    requires Enabled(s, e) && !e.WorkerReads? && !e.Attaches?
    ensures Do(s, e).w.conn.active == s.w.conn.active && Do(s, e).w.conn.alone == s.w.conn.alone
  {
    if e.WorkerHandles? {
      HandledSame(s.w, s.batch[0], e.starts);
      assert Do(s, e).w == Received(s.w, s.batch[0], e.starts).state;
    }
  }

  lemma StepSays(s: System, e: Event, read: seq<FromDaemon>)
    requires Enabled(s, e) && s.w.conn.active == SaidActive(read) && s.w.conn.alone == SaidAlone(read)
    ensures var conn := Do(s, e).w.conn;
            if e.Attaches? then !conn.active && !conn.alone
            else
              var now := if e.WorkerReads? then read + s.down[..e.n] else read;
              conn.active == SaidActive(now) && conn.alone == SaidAlone(now)
  {
    if e.WorkerReads? {
      ParsedSays(s.w.conn, read, s.down[..e.n]);
    } else if !e.Attaches? {
      OthersSame(s, e);
    }
  }

  /** In every state of every run, what the session holds of its role is what was read on it. */
  lemma {:induction false} RolesAreKnown(states: seq<System>, events: seq<Event>, n: nat)
    requires IsRun(states, events) && n <= |events|
    ensures var conn, read := states[n].w.conn, ReadOn(states, events, n);
            conn.active == SaidActive(read) && conn.alone == SaidAlone(read)
  {
    if n > 0 {
      RolesAreKnown(states, events, n - 1);
      StepSays(states[n - 1], events[n - 1], ReadOn(states, events, n - 1));
    }
  }

  /** Whether the daemon was found stale when the present session opened. */
  function FoundStale(events: seq<Event>, n: nat): bool
    requires n <= |events|
  {
    n > 0 && if events[n - 1].Attaches? then events[n - 1].stale else FoundStale(events, n - 1)
  }

  // ----- Handling one message -----

  /** A message that answers a config of this copy's own, or none it awaits, asks for a restart. */
  predicate RejectsOwn(w: State, m: FromDaemon) {
    m == ConfigError(true) && (w.pending == [] || w.pending[0].None?)
  }

  /** The session is given up for a stale daemon that no other copy uses, or for a config that needs a restart, and for nothing else. */
  lemma GivesUpExactly(w: State, m: FromDaemon, starts: bool)
    requires DocumentOf(w.now).Some? && w.attached
    ensures var effect := Received(w, m, starts);
            && (!effect.state.attached <==>
                  ((m.Role? || m.Alone?) && !w.leaving && w.conn.active && w.conn.alone && w.stale) || RejectsOwn(w, m))
            && (if effect.state.attached then effect.state.conn == w.conn && effect.state.stale == w.stale
                else effect.sent == [] && effect.state.conn == w.conn.(closed := true))
            && effect.state.leaving == w.leaving
  {
  }

  /** This copy's own config goes out on a role or alone message, when it is active, stays, and has none out or awaited. */
  lemma OwnConfigExactly(w: State, m: FromDaemon, starts: bool)
    requires DocumentOf(w.now).Some? && w.attached
    ensures Pushes(Received(w, m, starts).sent) != [] <==>
              && (m.Role? || m.Alone?) && w.conn.active && !w.leaving && !(w.conn.alone && w.stale)
              && w.pending == [] && (m.Role? || DocumentOf(w.now) != w.pushed)
    ensures Pushes(Received(w, m, starts).sent) != [] ==>
              Received(w, m, starts).sent == [Push(DocumentOf(w.now).value, None)]
  {
    if m.Reload? {
      AtRest.ErrorPushesNothing(m.id);
    }
  }

  /** A role is noted: this copy is on standby from the first role that makes it so while it stays, until it is active. */
  lemma StandbyExactly(w: State, m: FromDaemon, starts: bool)
    requires DocumentOf(w.now).Some?
    ensures var standby := Received(w, m, starts).state.standby;
            standby <==> if m.Role? then !w.conn.active && (w.standby || !w.leaving) else w.standby
  {
  }

  // ----- Every run -----

  lemma StepStale(s: System, e: Event)
    requires Enabled(s, e) && Do(s, e).w.attached && !e.Attaches?
    ensures s.w.attached && Do(s, e).w.stale == s.w.stale
  {
    if e.WorkerHandles? {
      var next := Received(s.w, s.batch[0], e.starts).state;
      assert Do(s, e).w == next;
      HandledStays(s.w, s.batch[0], e.starts);
      GivesUpExactly(s.w, s.batch[0], e.starts);
    }
  }

  lemma HandledStays(w: State, m: FromDaemon, starts: bool)
    requires DocumentOf(w.now).Some? && Received(w, m, starts).state.attached
    ensures w.attached
  {
  }

  lemma {:induction false} StaleIsKnown(states: seq<System>, events: seq<Event>, n: nat)
    requires IsRun(states, events) && n <= |events| && states[n].w.attached
    ensures states[n].w.stale == FoundStale(events, n)
  {
    if n > 0 && !events[n - 1].Attaches? {
      StepStale(states[n - 1], events[n - 1]);
      StaleIsKnown(states, events, n - 1);
    }
  }

  /**
    On every run, for each message handled on a session of this copy: the session
    is given up, and RunWisp restarted, exactly when it was found stale and the
    daemon has said that this copy is active and no other has runs, or when it
    rejects this copy's own config and asks for it.
   */
  lemma RestartsExactly(states: seq<System>, events: seq<Event>, starts: bool)
    requires IsRun(states, events)
    requires var s := states[|events|]; Enabled(s, WorkerHandles(starts)) && s.w.attached
    ensures var s, n := states[|events|], |events|;
            var m, read := s.batch[0], ReadOn(states, events, n);
            !Do(s, WorkerHandles(starts)).w.attached <==>
              || ((m.Role? || m.Alone?) && !s.w.leaving && SaidActive(read) && SaidAlone(read) && FoundStale(events, n))
              || RejectsOwn(s.w, m)
  {
    var s := states[|events|];
    RolesAreKnown(states, events, |events|);
    StaleIsKnown(states, events, |events|);
    GivesUpExactly(s.w, s.batch[0], starts);
    assert Do(s, WorkerHandles(starts)).w == Received(s.w, s.batch[0], starts).state;
  }
}
