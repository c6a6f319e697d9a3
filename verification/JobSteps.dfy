/**
  packages/js/src/runwisp.ts: the queue of jobs that connect to RunWisp and push
  the app's config, one step for each stretch of code between two awaits.
 */
module JobSteps {
  import opened Wrappers

  // ----- The queue -----

  /** How a job ended: well, with its push refused, or broken off because it could not start or stop a daemon. */
  datatype Ending = Done | Refused | Broken

  /** How far a job is. Turning is in nextTurn(), before the job clears pending. */
  datatype Phase =
    | Waiting
    | Turning
    | Booting
    | Applying
    | Pushing(doc: string)
    | Restarting
    | Rebooting
    | Refreshing
    | Settled(ending: Ending)

  /**
    jobs are the promises made so far; the last one's catch is the field queue.
    changes counts the calls of sync() while open, and seen is what it was when
    a job last began.
   */
  datatype Queue = Queue(pending: Option<nat>, jobs: seq<Phase>, changes: nat, seen: nat)

  function Asked(q: Queue): Queue {
    if q.pending.Some? then q.(changes := q.changes + 1)
    else Queue(Some(|q.jobs|), q.jobs + [Waiting], q.changes + 1, q.seen)
  }

  predicate At(q: Queue, k: nat, phase: Phase) {
    k < |q.jobs| && q.jobs[k] == phase
  }

  /** queue.then(...): a job starts once the one before it has settled. */
  predicate MayStart(q: Queue, k: nat) {
    At(q, k, Waiting) && (k == 0 || q.jobs[k - 1].Settled?)
  }

  function Moved(q: Queue, k: nat, phase: Phase): Queue
    requires k < |q.jobs|
  {
    q.(jobs := q.jobs[k := phase])
  }

  function Begun(q: Queue, k: nat, phase: Phase): Queue
    requires k < |q.jobs|
  {
    Queue(None, q.jobs[k := phase], q.changes, q.changes)
  }

  // ----- The connection -----

  /** What a session was last told of its role. */
  datatype Peer = Peer(active: bool, alone: bool)

  /** opening is a connection that attach() has not assigned to session yet. */
  datatype Link = Link(session: Option<Peer>, opening: Option<Peer>, booted: bool, stale: bool)

  predicate Active(link: Link) {
    link.session.Some? && link.session.value.active
  }

  // ----- Steps -----

  /** What the session's config() resolves to; PushReplies says when the session itself rejects. */
  datatype Reply = Accepted | Rejected(restart: bool)

  datatype State = State(enabled: bool, closed: bool, document: string, pushed: Option<string>,
                         link: Link, retryTimer: bool, queue: Queue)

  function Initial(enabled: bool, document: string): State {
    State(enabled, false, document, None, Link(None, None, false, false), false, Queue(None, [], 0, 0))
  }

  function Synced(s: State): State {
    if !s.enabled || s.closed then s else s.(queue := Asked(s.queue))
  }

  function RetriedLater(s: State): State {
    if s.closed || s.link.session.Some? then s else s.(retryTimer := true)
  }

  function Failed(s: State, k: nat, ending: Ending): State
    requires k < |s.queue.jobs|
  {
    RetriedLater(s.(queue := Moved(s.queue, k, Settled(ending))))
  }

  function Changed(s: State, document: string): State {
    if s.closed then s else Synced(s.(document := document))
  }

  function TurnTaken(s: State, k: nat): State
    requires k < |s.queue.jobs|
  {
    s.(queue := Begun(s.queue, k, if s.link.booted then Applying else Booting),
       link := s.link.(booted := true, opening := if s.link.booted then s.link.opening else None))
  }

  /** Session.open() resolves once the daemon has said what this copy's role is. */
  function Attached(s: State, k: nat, stale: bool): State
    requires k < |s.queue.jobs|
  {
    var attached := s.(link := Link(s.link.opening, None, s.link.booted, stale));
    if s.queue.jobs[k].Booting? then attached.(queue := Moved(s.queue, k, Applying))
    else Synced(attached.(queue := Moved(s.queue, k, Settled(Done))))
  }

  function BootFailed(s: State, k: nat): State
    requires k < |s.queue.jobs|
  {
    Failed(s.(link := s.link.(booted := false, opening := None)), k, Broken)
  }

  function Restarted(s: State, k: nat): State
    requires k < |s.queue.jobs|
  {
    s.(queue := Moved(s.queue, k, Restarting), link := s.link.(session := None, booted := false))
  }

  function Applied(s: State, k: nat): State
    requires k < |s.queue.jobs|
  {
    if Active(s.link) && s.link.session.value.alone && s.link.stale
    then Restarted(s.(link := s.link.(stale := false)), k)
    else if Active(s.link) && s.pushed != Some(s.document)
    then s.(queue := Moved(s.queue, k, Pushing(s.document)))
    else s.(queue := Moved(s.queue, k, Refreshing))
  }

  function Replied(s: State, k: nat, doc: string, reply: Reply): State
    requires k < |s.queue.jobs|
  {
    match reply
    case Accepted => s.(pushed := Some(doc), queue := Moved(s.queue, k, Refreshing))
    case Rejected(restart) => if restart then Restarted(s, k) else Failed(s, k, Refused)
  }

  /** Once the daemon has stopped, restart() boots again. */
  function DaemonStopped(s: State, k: nat): State
    requires k < |s.queue.jobs|
  {
    s.(queue := Moved(s.queue, k, Rebooting), link := s.link.(booted := true, opening := None))
  }

  /** Without a session, booted means that attach() is still connecting. */
  function RoleReceived(s: State, peer: Peer): State {
    var told := if peer.active then s.(pushed := None) else s;
    if s.link.session.Some? then
      var known := told.(link := s.link.(session := Some(peer)));
      if peer.active then Synced(known) else known
    else if s.link.booted then told.(link := s.link.(opening := Some(peer)))
    else told
  }

  function AloneReceived(s: State): State {
    if s.link.session.Some? then
      var told := s.(link := s.link.(session := Some(s.link.session.value.(alone := true))));
      if s.link.stale then Synced(told) else told
    else if s.link.opening.Some? then s.(link := s.link.(opening := Some(s.link.opening.value.(alone := true))))
    else s
  }

  function ConnectionClosed(s: State): State {
    if s.link.session.None? then s else RetriedLater(s.(link := s.link.(session := None, booted := false)))
  }

  function TimerFired(s: State): State {
    if s.retryTimer then Synced(s.(retryTimer := false)) else s
  }

  datatype Event =
    | OnChange(document: string)
    | OnStart
    | OnQueueReached(job: nat)
    | OnTurn(job: nat)
    | OnAttached(job: nat, stale: bool)
    | OnBootFailed(job: nat)
    | OnApply(job: nat)
    | OnReply(job: nat, reply: Reply)
    | OnDaemonStopped(job: nat)
    | OnStopFailed(job: nat)
    | OnRefreshed(job: nat)
    | OnRole(peer: Peer)
    | OnAlone
    | OnClosed
    | OnTimer
    | OnClose
    | OnGivenUp

  predicate AllSettled(q: Queue) {
    forall k :: 0 <= k < |q.jobs| ==> q.jobs[k].Settled?
  }

  /** The end of close(), which awaited the queue: the session goes, and booted stays set. */
  function GivenUp(s: State): State {
    if s.closed && AllSettled(s.queue) then s.(link := s.link.(session := None)) else s
  }

  /** A step of a job that is not there yet does nothing. */
  function Step(s: State, e: Event): State {
    match e
    case OnChange(document) => Changed(s, document)
    case OnStart => Synced(s)
    case OnQueueReached(k) => if MayStart(s.queue, k) then s.(queue := Moved(s.queue, k, Turning)) else s
    case OnTurn(k) => if At(s.queue, k, Turning) then TurnTaken(s, k) else s
    case OnAttached(k, stale) =>
      if s.link.opening.Some? && (At(s.queue, k, Booting) || At(s.queue, k, Rebooting)) then Attached(s, k, stale) else s
    case OnBootFailed(k) => if At(s.queue, k, Booting) || At(s.queue, k, Rebooting) then BootFailed(s, k) else s
    case OnApply(k) => if At(s.queue, k, Applying) then Applied(s, k) else s
    case OnReply(k, reply) =>
      if k < |s.queue.jobs| && s.queue.jobs[k].Pushing? then Replied(s, k, s.queue.jobs[k].doc, reply) else s
    case OnDaemonStopped(k) => if At(s.queue, k, Restarting) then DaemonStopped(s, k) else s
    case OnStopFailed(k) => if At(s.queue, k, Restarting) then Failed(s, k, Broken) else s
    case OnRefreshed(k) => if At(s.queue, k, Refreshing) then s.(queue := Moved(s.queue, k, Settled(Done))) else s
    case OnRole(peer) => RoleReceived(s, peer)
    case OnAlone => AloneReceived(s)
    case OnClosed => ConnectionClosed(s)
    case OnTimer => TimerFired(s)
    case OnClose => s.(closed := true, retryTimer := false)
    case OnGivenUp => GivenUp(s)
  }

  function After(start: State, es: seq<Event>): State {
    if es == [] then start else Step(After(start, es[..|es| - 1]), es[|es| - 1])
  }
}
