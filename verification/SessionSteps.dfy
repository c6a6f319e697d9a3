/**
  packages/js/src/session.ts as a state machine: what each call, message and
  socket event does to the session's state.
 */
module SessionSteps {
  import opened Wrappers

  /** session.ts:35, in UTF-16 units of JSON. */
  const BATCH_SIZE := 64 * 1024

  datatype Stream = Stdout | Stderr

  /** A line the session sends. DropReport is the stderr line naming how many lines a run lost. */
  datatype Message =
    | Output(run: string, stream: Stream, line: string, partial: bool)
    | DropReport(run: string, count: nat)
    | Exit(run: string, code: int, skipped: bool)
    | Leave
    | ReloadError(id: string)
    | Config(doc: string, reload: Option<string>)

  datatype Reply = Accepted(warnings: seq<string>) | Rejected(error: string, restart: bool)

  /** How long each message is on the wire, and from what backlog on output is not sent. */
  datatype Settings = Settings(size: Message -> nat, limit: nat)

  // ----- What goes out -----

  /**
    said holds every message in the order the session produced it, written
    those handed to the socket; immediates counts the flushes the event loop
    still owes.
   */
  datatype Outbox = Outbox(batch: seq<Message>, flushScheduled: bool, immediates: nat,
                           writable: bool, written: seq<Message>, said: seq<Message>)

  function SizeOf(batch: seq<Message>, size: Message -> nat): nat {
    if batch == [] then 0 else SizeOf(batch[..|batch| - 1], size) + size(batch[|batch| - 1])
  }

  function Flushed(o: Outbox): Outbox {
    Outbox([], false, o.immediates, o.writable, if o.writable then o.written + o.batch else o.written, o.said)
  }

  function Sent(o: Outbox, m: Message, size: Message -> nat): Outbox {
    var more := o.(batch := o.batch + [m], said := o.said + [m]);
    if SizeOf(more.batch, size) >= BATCH_SIZE then Flushed(more)
    else if !o.flushScheduled then more.(flushScheduled := true, immediates := o.immediates + 1)
    else more
  }

  function SentAll(o: Outbox, ms: seq<Message>, size: Message -> nat): Outbox {
    if ms == [] then o else Sent(SentAll(o, ms[..|ms| - 1], size), ms[|ms| - 1], size)
  }

  /** The batch goes out first, so the message written at once keeps its place. */
  function WrittenNow(o: Outbox, m: Message): Outbox {
    var f := Flushed(o);
    f.(written := if o.writable then f.written + [m] else f.written, said := o.said + [m])
  }

  // ----- What was dropped -----

  /** One entry of the dropped map, which keeps the order its keys were added in. */
  datatype Drop = Drop(run: string, count: nat)

  function Held(dropped: seq<Drop>, run: string): nat {
    if dropped == [] then 0
    else
      var last := dropped[|dropped| - 1];
      Held(dropped[..|dropped| - 1], run) + if last.run == run then last.count else 0
  }

  /** One line more is held against the run, which keeps its place or is added last. */
  function OneMore(dropped: seq<Drop>, run: string): seq<Drop> {
    if dropped == [] then [Drop(run, 1)]
    else if dropped[0].run == run then [Drop(run, dropped[0].count + 1)] + dropped[1..]
    else [dropped[0]] + OneMore(dropped[1..], run)
  }

  predicate Picks(only: Option<string>, run: string) {
    only.None? || only.value == run
  }

  function Reports(dropped: seq<Drop>, only: Option<string>): seq<Message> {
    if dropped == [] then []
    else
      var last := dropped[|dropped| - 1];
      var before := Reports(dropped[..|dropped| - 1], only);
      if Picks(only, last.run) then before + [DropReport(last.run, last.count)] else before
  }

  function Unreported(dropped: seq<Drop>, only: Option<string>): seq<Drop> {
    if dropped == [] then []
    else
      var last := dropped[|dropped| - 1];
      var before := Unreported(dropped[..|dropped| - 1], only);
      if Picks(only, last.run) then before else before + [last]
  }

  // ----- Who waits for a config's reply -----

  /** What the next reply is handed to: a config() promise, or nothing for a reload's answer. */
  datatype Asker = Push(promise: nat, doc: string) | Answer(id: string, doc: string)

  /** settled holds the config() promises settled so far, and with what; answered counts the daemon's replies. */
  datatype Asking = Asking(replies: seq<Asker>, lastDoc: Option<string>, asked: nat,
                           settled: seq<(nat, Reply)>, answered: nat)

  const NOT_CONNECTED := Rejected("RunWisp is not connected", false)
  const PENDING := Rejected("a config push is already pending", false)
  const STOPPED := Rejected("RunWisp stopped before it applied the config", false)

  function Settled(asker: Asker, reply: Reply): seq<(nat, Reply)> {
    if asker.Push? then [(asker.promise, reply)] else []
  }

  function SettledAll(askers: seq<Asker>, reply: Reply): seq<(nat, Reply)> {
    if askers == [] then []
    else SettledAll(askers[..|askers| - 1], reply) + Settled(askers[|askers| - 1], reply)
  }

  function Refused(a: Asking, reply: Reply): Asking {
    a.(asked := a.asked + 1, settled := a.settled + [(a.asked, reply)])
  }

  // ----- One event -----

  datatype State = State(out: Outbox, dropped: seq<Drop>, listeners: nat, asking: Asking, closed: bool)

  const INITIAL := State(Outbox([], false, 0, true, [], []), [], 0, Asking([], None, 0, [], 0), false)

  /**
    queued is the socket's writableLength when output() is called. A reload
    whose id is not a string is None.
   */
  datatype Event =
    | OnOutput(run: string, stream: Stream, line: string, partial: bool, queued: nat)
    | OnExit(run: string, code: int, skipped: bool)
    | OnLeave
    | OnConfig(doc: string)
    | OnReply(reply: Reply)
    | OnReload(id: Option<string>)
    | OnImmediate
    | OnCrash
    | OnDrain
    | OnEnd
    | OnBroken
    | OnGone

  function OutputCalled(s: State, m: Message, queued: nat, env: Settings): State
    requires m.Output?
  {
    if queued + SizeOf(s.out.batch, env.size) > env.limit then
      s.(listeners := if s.dropped == [] then s.listeners + 1 else s.listeners,
         dropped := OneMore(s.dropped, m.run))
    else s.(out := Sent(s.out, m, env.size))
  }

  function DropsReported(s: State, only: Option<string>, env: Settings): State {
    s.(out := SentAll(s.out, Reports(s.dropped, only), env.size), dropped := Unreported(s.dropped, only))
  }

  function ExitCalled(s: State, m: Message, env: Settings): State
    requires m.Exit?
  {
    var reported := DropsReported(s, Some(m.run), env);
    reported.(out := Sent(reported.out, m, env.size))
  }

  function ConfigCalled(s: State, doc: string): State {
    if !s.out.writable then s.(asking := Refused(s.asking, NOT_CONNECTED))
    else if s.asking.replies != [] then s.(asking := Refused(s.asking, PENDING))
    else s.(out := WrittenNow(s.out, Config(doc, None)),
            asking := s.asking.(replies := [Push(s.asking.asked, doc)], lastDoc := Some(doc),
                                asked := s.asking.asked + 1))
  }

  /** The one that waits longest gets the reply; without any, it is ignored. */
  function ReplyReceived(a: Asking, reply: Reply): Asking {
    if a.replies == [] then a.(answered := a.answered + 1)
    else a.(replies := a.replies[1..], settled := a.settled + Settled(a.replies[0], reply),
            answered := a.answered + 1)
  }

  function ReloadReceived(s: State, id: string, env: Settings): State {
    if s.asking.lastDoc.None? || s.asking.replies != [] then s.(out := Sent(s.out, ReloadError(id), env.size))
    else
      var doc := s.asking.lastDoc.value;
      s.(out := WrittenNow(s.out, Config(doc, Some(id))),
         asking := s.asking.(replies := s.asking.replies + [Answer(id, doc)]))
  }

  function SocketClosed(a: Asking): Asking {
    a.(replies := [], settled := a.settled + SettledAll(a.replies, STOPPED))
  }

  function LeaveCalled(s: State, env: Settings): State {
    s.(out := Sent(s.out, Leave, env.size))
  }

  /** The event loop runs a flush it owes. */
  function ImmediateRun(s: State): State {
    if s.out.immediates == 0 then s
    else s.(out := Flushed(s.out.(immediates := s.out.immediates - 1)))
  }

  /** The socket's drain event runs the listeners that wait for it. */
  function Drained(s: State, env: Settings): State {
    if s.listeners == 0 then s else DropsReported(s.(listeners := 0), None, env)
  }

  /** close() ends the socket's writing side. */
  function Ended(s: State): State {
    s.(out := Flushed(s.out).(writable := false))
  }

  /** The socket's close event. */
  function Gone(s: State): State {
    s.(out := s.out.(writable := false), asking := SocketClosed(s.asking), closed := true)
  }

  function Step(s: State, e: Event, env: Settings): State {
    match e
    case OnOutput(run, stream, line, partial, queued) => OutputCalled(s, Output(run, stream, line, partial), queued, env)
    case OnExit(run, code, skipped) => ExitCalled(s, Exit(run, code, skipped), env)
    case OnLeave => LeaveCalled(s, env)
    case OnConfig(doc) => ConfigCalled(s, doc)
    case OnReply(reply) => s.(asking := ReplyReceived(s.asking, reply))
    case OnReload(id) => if id.None? then s else ReloadReceived(s, id.value, env)
    case OnImmediate => ImmediateRun(s)
    case OnCrash => s.(out := Flushed(s.out))
    case OnDrain => Drained(s, env)
    case OnEnd => Ended(s)
    case OnBroken => s.(out := s.out.(writable := false))
    case OnGone => Gone(s)
  }

  /** The state after a session's events so far. */
  function After(es: seq<Event>, env: Settings): State {
    if es == [] then INITIAL else Step(After(es[..|es| - 1], env), es[|es| - 1], env)
  }
}
