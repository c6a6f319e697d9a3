/**
  How a worker of packages/php/src/Worker.php gives RunWisp its config: the
  configs it sends, the answers it matches to them by order alone, and the
  reloads RunWisp asks for. Runs are in Relay.

  Each method is proved to do what the function of the same name says about
  the worker's state as a value; Agreement proves what those functions keep
  together with the daemon.
 */
module Worker {
  import opened Wrappers
  import opened Documents

  // ----- Messages -----

  datatype ToDaemon =
    | Push(doc: Document, answers: Option<string>)
    | ReloadError(id: string)
    | Leave

  datatype FromDaemon =
    | Role(active: bool, alone: bool)
    | Alone
    | Reload(id: string)
    | ConfigOk
    | ConfigError(restart: bool)

  // ----- State as a value -----

  /** A session as the worker sees it; id tells sessions apart. */
  datatype Conn = Conn(id: nat, active: bool, alone: bool, closed: bool)

  /** A reload under way: the ids it answers, and the session it was asked on. */
  datatype Reloading = Reloading(ids: seq<string>, session: nat)

  /**
    now: the config and units this copy runs. pushed: the document RunWisp
    applied from it, or that is still unanswered. pending: the configs
    sent and not answered, oldest first, with what to take on once accepted,
    None for this copy's own. conn: the session opened last; attached: it is
    still this copy's session.
   */
  datatype State = State(
    now: Definition,
    stale: bool,
    pushed: Option<Document>,
    pending: seq<Option<Definition>>,
    standby: bool,
    leaving: bool,
    attached: bool,
    conn: Conn,
    reloading: Option<Reloading>)

  /** A new state and what was given to the session to send; a closed session sends nothing. */
  datatype Effect = Effect(state: State, sent: seq<ToDaemon>)

  // ----- What each step does -----

  /** Session::messages: a role or alone message takes effect when it is read, before any is handled. */
  function Parsed(conn: Conn, messages: seq<FromDaemon>): Conn {
    if messages == [] then conn
    else
      var before := Parsed(conn, messages[..|messages| - 1]);
      match messages[|messages| - 1]
      case Role(active, alone) => before.(active := active, alone := alone)
      case Alone => before.(alone := true)
      case _ => before
  }

  function Disconnected(st: State): State {
    st.(attached := false)
  }

  function Restarted(st: State): State {
    Disconnected(if st.attached then st.(conn := st.conn.(closed := true)) else st)
  }

  function Applied(st: State): Effect
    requires DocumentOf(st.now).Some?
  {
    if !st.attached || !st.conn.active || st.leaving then Effect(st, [])
    else if st.conn.alone && st.stale then Effect(Restarted(st.(stale := false)), [])
    else
      var doc := DocumentOf(st.now);
      if st.pending == [] && doc != st.pushed then
        Effect(st.(pending := [None], pushed := doc), [Push(doc.value, None)])
      else Effect(st, [])
  }

  function RoleTaken(st: State): Effect
    requires DocumentOf(st.now).Some?
  {
    if !st.conn.active then Effect(st.(standby := st.standby || !st.leaving), [])
    else Applied(st.(standby := false, pushed := None))
  }

  /** starts: whether PHP could be started to read the tasks afresh. */
  function ReloadStarted(st: State, id: string, starts: bool): Effect {
    match st.reloading
    case Some(r) => Effect(st.(reloading := Some(r.(ids := r.ids + [id]))), [])
    case None =>
      if starts then Effect(st.(reloading := Some(Reloading([id], st.conn.id))), [])
      else Effect(st, [ReloadError(id)])
  }

  function Received(st: State, m: FromDaemon, starts: bool): Effect
    requires DocumentOf(st.now).Some?
  {
    match m
    case Role(_, _) => RoleTaken(st)
    case Alone => Applied(st)
    case Reload(id) => ReloadStarted(st, id, starts)
    case ConfigOk =>
      if st.pending == [] then Effect(st, [])
      else
        Effect(st.(pending := st.pending[1..], now := if st.pending[0].Some? then st.pending[0].value else st.now), [])
    case ConfigError(restart) =>
      var shifted := st.(pending := if st.pending == [] then [] else st.pending[1..], pushed := None);
      if st.pending != [] && st.pending[0].Some? then Effect(shifted, [])
      else if restart then Effect(Restarted(shifted), [])
      else Effect(shifted, [])
  }

  function ReadDocument(read: Option<Definition>): Option<Document> {
    if read.Some? then DocumentOf(read.value) else None
  }

  /** The answer to one id of a reload, once its process ended: read is None when it could not be read. */
  function Answer(id: string, read: Option<Definition>): ToDaemon {
    var doc := ReadDocument(read);
    if doc.Some? then Push(doc.value, Some(id)) else ReloadError(id)
  }

  function Answers(ids: seq<string>, read: Option<Definition>): (ms: seq<ToDaemon>)
    ensures |ms| == |ids|
    ensures forall i :: 0 <= i < |ids| ==> ms[i] == Answer(ids[i], read)
  {
    if ids == [] then [] else [Answer(ids[0], read)] + Answers(ids[1..], read)
  }

  /** What a reload adds to pending for n ids. */
  function Awaited(n: nat, read: Option<Definition>): (added: seq<Option<Definition>>)
    ensures ReadDocument(read) == None ==> added == []
    ensures ReadDocument(read).Some? ==> |added| == n && forall i :: 0 <= i < n ==> added[i] == read
  {
    if n == 0 || ReadDocument(read) == None then [] else [read] + Awaited(n - 1, read)
  }

  function ReloadFinished(st: State, read: Option<Definition>): Effect
    requires st.reloading.Some?
  {
    var r := st.reloading.value;
    var idle := st.(reloading := None);
    if !st.attached || r.session != st.conn.id then Effect(idle, [])
    else
      Effect(idle.(pending := st.pending + Awaited(|r.ids|, read),
                   pushed := if ReadDocument(read).Some? && r.ids != [] then ReadDocument(read) else st.pushed),
             Answers(r.ids, read))
  }

  /** The first signal: the session hears that this copy leaves for good. */
  function Left(st: State): Effect {
    Effect(st.(leaving := true), if st.attached then [Leave] else [])
  }

  /** attach: a new session, which has heard no role yet. */
  function Attached(st: State, stale: bool): State {
    st.(stale := stale, attached := true, conn := Conn(st.conn.id + 1, false, false, false), pushed := None, pending := [])
  }

  /** What a session writes of what it was given. */
  function Written(conn: Conn, ms: seq<ToDaemon>): seq<ToDaemon> {
    if conn.closed then [] else ms
  }

  // ----- The objects -----

  class Session {
    const id: nat
    var active: bool
    var alone: bool
    var closed: bool
    /** Everything written on it. */
    var sent: seq<ToDaemon>

    constructor (id: nat)
      ensures this.id == id && !active && !alone && !closed && sent == []
    {
      this.id := id;
      active, alone, closed, sent := false, false, false, [];
    }

    ghost function View(): Conn
      reads this
    {
      Conn(id, active, alone, closed)
    }

    method Messages(messages: seq<FromDaemon>)
      modifies this`active, this`alone
      ensures View() == Parsed(old(View()), messages)
    {
      var i := 0;
      while i < |messages|
        invariant 0 <= i <= |messages|
        invariant View() == Parsed(old(View()), messages[..i])
      {
        assert messages[..i + 1][..i] == messages[..i];
        match messages[i] {
          case Role(a, l) => active, alone := a, l;
          case Alone => alone := true;
          case _ =>
        }
        i := i + 1;
      }
      assert messages[..i] == messages;
    }

    method Send(m: ToDaemon)
      modifies this`sent
      ensures sent == old(sent) + Written(View(), [m])
    {
      if !closed {
        sent := sent + [m];
      }
    }

    method Close()
      modifies this`closed
      ensures closed
    {
      closed := true;
    }
  }

  datatype ReloadJob = ReloadJob(ids: seq<string>, session: Session)

  class Worker {
    var config: Config
    var units: map<string, Unit>
    var stale: bool
    var pushed: Option<Document>
    var pending: seq<Option<Definition>>
    var standby: bool
    var leaving: bool
    var session: Session?
    var reloading: Option<ReloadJob>

    /** The state, with conn the session opened last. */
    ghost function View(conn: Session): State
      reads this, conn
    {
      State(Definition(config, units), stale, pushed, pending, standby, leaving, session == conn, conn.View(),
            match reloading case None => None case Some(r) => Some(Reloading(r.ids, r.session.id)))
    }

    /** conn is the session opened last: this worker's session or one it gave up, and the only one with its id. */
    ghost predicate Valid(conn: Session)
      reads this, conn
    {
      && (session == conn || session == null)
      && (reloading.Some? && reloading.value.session.id == conn.id ==> reloading.value.session == conn)
      && (reloading.Some? ==> reloading.value.session.id <= conn.id)
      && DocumentOf(Definition(config, units)).Some?
      && forall i :: 0 <= i < |pending| ==> pending[i].Some? ==> DocumentOf(pending[i].value).Some?
    }

    /** A worker whose config run() found valid, with no session yet. */
    constructor (def: Definition)
      requires DocumentOf(def).Some?
      ensures Definition(config, units) == def && session == null && reloading == None
      ensures pushed == None && pending == [] && !stale && !standby && !leaving
    {
      config, units := def.config, def.units;
      stale, standby, leaving := false, false, false;
      pushed, pending, session, reloading := None, [], null, None;
    }

    method Disconnect(ghost conn: Session)
      requires Valid(conn)
      modifies this`session
      ensures Valid(conn) && View(conn) == Disconnected(old(View(conn)))
    {
      session := null;
    }

    method Restart(ghost conn: Session)
      requires Valid(conn)
      modifies this`session, conn`closed
      ensures Valid(conn) && View(conn) == Restarted(old(View(conn)))
    {
      if session != null {
        session.Close();
      }
      Disconnect(conn);
    }

    /** On an active session, and unless the copy is leaving: restarts the daemon, or sends what it lacks. */
    method Apply(ghost conn: Session)
      requires Valid(conn)
      modifies this`stale, this`pending, this`pushed, this`session, conn`closed, conn`sent
      ensures Valid(conn) && View(conn) == Applied(old(View(conn))).state
      ensures conn.sent == old(conn.sent) + Written(old(conn.View()), Applied(old(View(conn))).sent)
    {
      if session == null || !session.active || leaving {
        return;
      }
      if session.alone && stale {
        stale := false;
        Restart(conn);
        return;
      }
      var doc := BuildDocument(Definition(config, units));
      if pending == [] && doc != pushed {
        pending := pending + [None];
        pushed := doc;
        session.Send(Push(doc.value, None));
      }
    }

    method TakeRole(conn: Session)
      requires Valid(conn)
      modifies this, conn`closed, conn`sent
      ensures Valid(conn) && View(conn) == RoleTaken(old(View(conn))).state
      ensures conn.sent == old(conn.sent) + Written(old(conn.View()), RoleTaken(old(View(conn))).sent)
    {
      if !conn.active {
        if !standby && !leaving {
          standby := true;
        }
        return;
      }
      if standby {
        standby := false;
      }
      pushed := None;
      Apply(conn);
    }

    method StartReload(conn: Session, id: string, starts: bool)
      requires Valid(conn)
      modifies this`reloading, conn`sent
      ensures Valid(conn) && View(conn) == ReloadStarted(old(View(conn)), id, starts).state
      ensures conn.sent == old(conn.sent) + Written(old(conn.View()), ReloadStarted(old(View(conn)), id, starts).sent)
    {
      match reloading {
        case Some(r) =>
          reloading := Some(r.(ids := r.ids + [id]));
        case None =>
          if starts {
            reloading := Some(ReloadJob([id], conn));
          } else {
            conn.Send(ReloadError(id));
          }
      }
    }

    method Receive(conn: Session, m: FromDaemon, starts: bool)
      requires Valid(conn)
      modifies this, conn`closed, conn`sent
      ensures Valid(conn) && View(conn) == Received(old(View(conn)), m, starts).state
      ensures conn.sent == old(conn.sent) + Written(old(conn.View()), Received(old(View(conn)), m, starts).sent)
    {
      match m {
        case Role(_, _) =>
          TakeRole(conn);
        case Alone =>
          Apply(conn);
        case Reload(id) =>
          StartReload(conn, id, starts);
        case ConfigOk =>
          ReceiveOk(conn);
        case ConfigError(restart) =>
          ReceiveError(conn, restart);
      }
    }

    method ReceiveOk(ghost conn: Session)
      requires Valid(conn)
      modifies this`pending, this`config, this`units
      ensures Valid(conn) && View(conn) == Received(old(View(conn)), ConfigOk, false).state
    {
      var read := ShiftPending(conn);
      if read.Some? {
        config, units := read.value.config, read.value.units;
      }
    }

    method ReceiveError(ghost conn: Session, restart: bool)
      requires Valid(conn)
      modifies this`pending, this`pushed, this`session, conn`closed
      ensures Valid(conn) && View(conn) == Received(old(View(conn)), ConfigError(restart), false).state
    {
      var read := ShiftPending(conn);
      pushed := None;
      if read == None && restart {
        Restart(conn);
      }
    }

    /** array_shift: the oldest unanswered config; None also when there is none. */
    method ShiftPending(ghost conn: Session) returns (read: Option<Definition>)
      requires Valid(conn)
      modifies this`pending
      ensures Valid(conn)
      ensures old(pending) == [] ==> pending == [] && read == None
      ensures old(pending) != [] ==> pending == old(pending)[1..] && read == old(pending)[0]
    {
      if pending == [] {
        return None;
      }
      read := pending[0];
      pending := pending[1..];
    }

    method FinishReload(ghost conn: Session, read: Option<Definition>)
      requires Valid(conn) && reloading.Some?
      modifies this`reloading, this`pending, this`pushed, conn`sent
      ensures Valid(conn) && View(conn) == ReloadFinished(old(View(conn)), read).state
      ensures conn.sent == old(conn.sent) + Written(old(conn.View()), ReloadFinished(old(View(conn)), read).sent)
    {
      var job := reloading.value;
      reloading := None;
      var doc := None;
      if read.Some? {
        doc := BuildDocument(read.value);
      }
      if session == null || job.session != session {
        return;
      }
      AnswerReload(conn, job.ids, read, doc);
    }

    /** The loop over the ids a reload answers. */
    method AnswerReload(ghost conn: Session, ids: seq<string>, read: Option<Definition>, doc: Option<Document>)
      requires Valid(conn) && session == conn && doc == ReadDocument(read)
      modifies this`pending, this`pushed, conn`sent
      ensures Valid(conn) && conn.sent == old(conn.sent) + Written(conn.View(), Answers(ids, read))
      ensures pending == old(pending) + Awaited(|ids|, read)
      ensures pushed == if doc.Some? && ids != [] then doc else old(pushed)
    {
      ghost var before := (pending, pushed, conn.sent);
      var i := 0;
      while i < |ids|
        invariant 0 <= i <= |ids| && Valid(conn)
        invariant Answered(before, (pending, pushed, conn.sent), conn.View(), ids[..i], read)
      {
        AnsweredOneMore(before, (pending, pushed, conn.sent), conn.View(), ids, i, read);
        AnswerOne(conn, ids[i], read, doc);
        i := i + 1;
      }
      assert ids[..i] == ids;
    }

    method AnswerOne(ghost conn: Session, id: string, read: Option<Definition>, doc: Option<Document>)
      requires Valid(conn) && session == conn && doc == ReadDocument(read)
      modifies this`pending, this`pushed, conn`sent
      ensures Valid(conn) && conn.sent == old(conn.sent) + Written(conn.View(), [Answer(id, read)])
      ensures pending == if doc.Some? then old(pending) + [read] else old(pending)
      ensures pushed == if doc.Some? then doc else old(pushed)
    {
      if doc == None {
        session.Send(ReloadError(id));
      } else {
        pending := pending + [read];
        pushed := doc;
        session.Send(Push(doc.value, Some(id)));
      }
    }

    method Signal(ghost conn: Session)
      requires Valid(conn) && !leaving
      modifies this`leaving, conn`sent
      ensures Valid(conn) && View(conn) == Left(old(View(conn))).state
      ensures conn.sent == old(conn.sent) + Written(old(conn.View()), Left(old(View(conn))).sent)
    {
      leaving := true;
      if session != null {
        session.Send(Leave);
      }
    }

    /** Connects again after the session conn was given up. */
    method Attach(conn: Session, stale: bool) returns (fresher: Session)
      requires Valid(conn) && session == null
      modifies this
      ensures fresh(fresher) && Valid(fresher) && fresher.sent == []
      ensures View(fresher) == Attached(old(View(conn)), stale)
    {
      fresher := new Session(conn.id + 1);
      this.stale := stale;
      session := fresher;
      pushed := None;
      pending := [];
    }
  }

  /** pending, pushed and what the session wrote. */
  type Book = (seq<Option<Definition>>, Option<Document>, seq<ToDaemon>)

  /** What answering ids makes of them. */
  ghost predicate Answered(before: Book, after: Book, conn: Conn, ids: seq<string>, read: Option<Definition>) {
    && after.0 == before.0 + Awaited(|ids|, read)
    && after.1 == (if ReadDocument(read).Some? && ids != [] then ReadDocument(read) else before.1)
    && after.2 == before.2 + Written(conn, Answers(ids, read))
  }

  lemma AnsweredOneMore(before: Book, after: Book, conn: Conn, ids: seq<string>, i: nat, read: Option<Definition>)
    requires i < |ids| && Answered(before, after, conn, ids[..i], read)
    ensures Answered(before,
                     (if ReadDocument(read).Some? then after.0 + [read] else after.0,
                      if ReadDocument(read).Some? then ReadDocument(read) else after.1,
                      after.2 + Written(conn, [Answer(ids[i], read)])),
                     conn, ids[..i + 1], read)
  {
    AnswersEnd(ids, i, read);
    WrittenPlus(conn, before.2, Answers(ids[..i], read), Answer(ids[i], read));
    assert ids[..i + 1] != [];
    if ReadDocument(read).Some? {
      assert (before.0 + Awaited(i, read)) + [read] == before.0 + (Awaited(i, read) + [read]);
    }
  }

  lemma WrittenPlus(conn: Conn, sent: seq<ToDaemon>, ms: seq<ToDaemon>, m: ToDaemon)
    ensures sent + Written(conn, ms + [m]) == (sent + Written(conn, ms)) + Written(conn, [m])
  {
  }

  lemma {:induction false} AnswersEnd(ids: seq<string>, i: nat, read: Option<Definition>)
    requires i < |ids|
    ensures Answers(ids[..i + 1], read) == Answers(ids[..i], read) + [Answer(ids[i], read)]
    ensures Awaited(i + 1, read) == if ReadDocument(read).Some? then Awaited(i, read) + [read] else Awaited(i, read)
  {
    assert |ids[..i + 1]| == i + 1;
    forall k | 0 <= k < i + 1 ensures Answers(ids[..i + 1], read)[k] == (Answers(ids[..i], read) + [Answer(ids[i], read)])[k] {
      assert ids[..i + 1][k] == ids[k];
    }
  }
}
