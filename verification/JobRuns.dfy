/**
  packages/js/src/runwisp.ts over every order of calls, replies and connection
  events: jobs do not overlap, no change is lost, and at rest an active copy has
  pushed its document exactly when the last job's push was not refused.
 */
module JobRuns {
  import opened Wrappers
  import opened JobSteps

  predicate NotBegun(p: Phase) {
    p.Waiting? || p.Turning?
  }

  predicate InBody(p: Phase) {
    !p.Waiting? && !p.Settled?
  }

  predicate Connects(p: Phase) {
    p.Booting? || p.Rebooting?
  }

  /** pending is the last job as long as it has not begun. */
  ghost predicate PendingIsLast(q: Queue) {
    && (forall k :: 0 <= k < |q.jobs| - 1 ==> !NotBegun(q.jobs[k]))
    && (q.pending.Some? <==> q.jobs != [] && NotBegun(q.jobs[|q.jobs| - 1]))
    && (q.pending.Some? ==> q.pending.value == |q.jobs| - 1)
  }

  /** A job that has started has only settled ones before it. */
  ghost predicate InTurn(q: Queue) {
    forall i, k :: 0 <= i < k < |q.jobs| && !q.jobs[k].Waiting? ==> q.jobs[i].Settled?
  }

  ghost predicate QueueSound(q: Queue) {
    PendingIsLast(q) && InTurn(q)
  }

  lemma MovedSound(q: Queue, k: nat, phase: Phase)
    requires QueueSound(q) && k < |q.jobs|
    requires !NotBegun(q.jobs[k]) && !q.jobs[k].Settled? && !NotBegun(phase)
    ensures QueueSound(Moved(q, k, phase))
  {
  }

  lemma BegunSound(q: Queue, k: nat, phase: Phase)
    requires QueueSound(q) && k < |q.jobs|
    ensures MayStart(q, k) ==> QueueSound(Moved(q, k, Turning))
    ensures q.jobs[k].Turning? && !NotBegun(phase) ==> QueueSound(Begun(q, k, phase))
  {
  }

  lemma AskedSound(q: Queue)
    requires QueueSound(q)
    ensures QueueSound(Asked(q))
  {
  }

  lemma AppliedQueue(s: State, k: nat)
    requires QueueSound(s.queue) && At(s.queue, k, Applying)
    ensures QueueSound(Applied(s, k).queue)
  {
    MovedSound(s.queue, k, Restarting);
    MovedSound(s.queue, k, Pushing(s.document));
    MovedSound(s.queue, k, Refreshing);
  }

  lemma RepliedQueue(s: State, k: nat, doc: string, reply: Reply)
    requires QueueSound(s.queue) && At(s.queue, k, Pushing(doc))
    ensures QueueSound(Replied(s, k, doc, reply).queue)
  {
    MovedSound(s.queue, k, Restarting);
    MovedSound(s.queue, k, Settled(Refused));
    MovedSound(s.queue, k, Refreshing);
  }

  lemma AttachedQueue(s: State, k: nat, stale: bool)
    requires QueueSound(s.queue) && (At(s.queue, k, Booting) || At(s.queue, k, Rebooting))
    ensures QueueSound(Attached(s, k, stale).queue)
    ensures QueueSound(BootFailed(s, k).queue)
  {
    MovedSound(s.queue, k, Applying);
    MovedSound(s.queue, k, Settled(Broken));
    MovedSound(s.queue, k, Settled(Done));
    AskedSound(Moved(s.queue, k, Settled(Done)));
  }

  /** The queue as it was, or asked for a job: all that the app's and the daemon's calls do. */
  lemma OutsideQueue(s: State, e: Event)
    requires QueueSound(s.queue)
    requires e.OnChange? || e.OnStart? || e.OnRole? || e.OnAlone? || e.OnClosed? || e.OnTimer? || e.OnClose? || e.OnGivenUp?
    ensures QueueSound(Step(s, e).queue)
  {
    AskedSound(s.queue);
  }

  lemma StepQueue(s: State, e: Event)
    requires QueueSound(s.queue)
    ensures QueueSound(Step(s, e).queue)
  {
    match e
    case OnQueueReached(k) =>
      if MayStart(s.queue, k) { BegunSound(s.queue, k, Turning); }
    case OnTurn(k) =>
      if At(s.queue, k, Turning) { BegunSound(s.queue, k, if s.link.booted then Applying else Booting); }
    case OnAttached(k, stale) =>
      if At(s.queue, k, Booting) || At(s.queue, k, Rebooting) { AttachedQueue(s, k, stale); }
    case OnBootFailed(k) =>
      if At(s.queue, k, Booting) || At(s.queue, k, Rebooting) { AttachedQueue(s, k, false); }
    case OnApply(k) =>
      if At(s.queue, k, Applying) { AppliedQueue(s, k); }
    case OnReply(k, reply) =>
      if k < |s.queue.jobs| && s.queue.jobs[k].Pushing? { RepliedQueue(s, k, s.queue.jobs[k].doc, reply); }
    case OnDaemonStopped(k) =>
      if At(s.queue, k, Restarting) { MovedSound(s.queue, k, Rebooting); }
    case OnStopFailed(k) =>
      if At(s.queue, k, Restarting) { MovedSound(s.queue, k, Settled(Broken)); }
    case OnRefreshed(k) =>
      if At(s.queue, k, Refreshing) { MovedSound(s.queue, k, Settled(Done)); }
    case _ => OutsideQueue(s, e);
  }

  lemma {:induction false} RunQueue(enabled: bool, document: string, es: seq<Event>)
    ensures QueueSound(After(Initial(enabled, document), es).queue)
  {
    if es != [] {
      RunQueue(enabled, document, es[..|es| - 1]);
      StepQueue(After(Initial(enabled, document), es[..|es| - 1]), es[|es| - 1]);
    }
  }

  /** The bodies of two jobs never overlap, and a waiting job may start or waits for one that runs. */
  lemma JobsDoNotOverlap(enabled: bool, document: string, es: seq<Event>)
    ensures var jobs := After(Initial(enabled, document), es).queue.jobs;
            forall i, k :: 0 <= i < k < |jobs| ==> !(InBody(jobs[i]) && InBody(jobs[k]))
    ensures var q := After(Initial(enabled, document), es).queue;
            forall k :: 0 <= k < |q.jobs| && q.jobs[k].Waiting? ==> MayStart(q, k) || (k > 0 && InBody(q.jobs[k - 1]))
  {
    RunQueue(enabled, document, es);
    var q := After(Initial(enabled, document), es).queue;
    forall k | 0 <= k < |q.jobs| && q.jobs[k].Waiting?
      ensures MayStart(q, k) || (k > 0 && InBody(q.jobs[k - 1]))
    {
      if k > 0 {
        assert !NotBegun(q.jobs[k - 1]);
      }
    }
  }

  // ----- What a step does to the queue -----

  /** The job whose code a step runs. */
  function JobOf(e: Event): Option<nat> {
    match e
    case OnQueueReached(k) => Some(k)
    case OnTurn(k) => Some(k)
    case OnAttached(k, _) => Some(k)
    case OnBootFailed(k) => Some(k)
    case OnApply(k) => Some(k)
    case OnReply(k, _) => Some(k)
    case OnDaemonStopped(k) => Some(k)
    case OnStopFailed(k) => Some(k)
    case OnRefreshed(k) => Some(k)
    case _ => None
  }

  lemma OutsideMoves(s: State, e: Event)
    requires JobOf(e).None?
    ensures Step(s, e).queue == s.queue || Step(s, e).queue == Asked(s.queue)
  {
  }

  /** The queue after job j's code ran. */
  ghost predicate MovedBy(q: Queue, next: Queue, j: nat) {
    || next == q
    || (j < |q.jobs| && exists phase :: next == Moved(q, j, phase) || next == Begun(q, j, phase) || next == Asked(Moved(q, j, phase)))
  }

  lemma ConnectMoves(s: State, e: Event, j: nat)
    requires JobOf(e) == Some(j) && (e.OnAttached? || e.OnBootFailed? || e.OnDaemonStopped? || e.OnStopFailed?)
    ensures MovedBy(s.queue, Step(s, e).queue, j)
  {
  }

  lemma JobMoves(s: State, e: Event, j: nat)
    requires JobOf(e) == Some(j)
    ensures MovedBy(s.queue, Step(s, e).queue, j)
  {
    if e.OnAttached? || e.OnBootFailed? || e.OnDaemonStopped? || e.OnStopFailed? {
      ConnectMoves(s, e, j);
    }
  }

  // ----- No change is lost -----

  /** What changed since a job last began will be read by the pending one. */
  ghost predicate NothingMissed(q: Queue) {
    q.pending.Some? || q.seen == q.changes
  }

  lemma StepMisses(s: State, e: Event)
    requires NothingMissed(s.queue)
    ensures NothingMissed(Step(s, e).queue)
  {
    if JobOf(e).None? {
      OutsideMoves(s, e);
    } else {
      JobMoves(s, e, JobOf(e).value);
    }
  }

  /** Every change made while open is followed by a job that reads it: one begun since, or the pending one. */
  lemma {:induction false} NoChangeIsLost(enabled: bool, document: string, es: seq<Event>)
    ensures NothingMissed(After(Initial(enabled, document), es).queue)
  {
    if es != [] {
      NoChangeIsLost(enabled, document, es[..|es| - 1]);
      StepMisses(After(Initial(enabled, document), es[..|es| - 1]), es[|es| - 1]);
    }
  }

  // ----- At rest, RunWisp has the document -----

  /** While open, attach() runs exactly when there is no session and booted is set. */
  ghost predicate LinkFits(link: Link, q: Queue, closed: bool) {
    && (link.session.Some? ==> link.booted)
    && (forall k :: 0 <= k < |q.jobs| && Connects(q.jobs[k]) ==> link.session.None? && link.booted)
    && (forall k :: 0 <= k < |q.jobs| && q.jobs[k].Restarting? ==> link.session.None?)
    && (link.booted && link.session.None? ==>
          (closed && AllSettled(q)) || exists k :: 0 <= k < |q.jobs| && Connects(q.jobs[k]))
  }

  /** What a job's phase says of the document, when nothing changed since it began. */
  predicate PushedFits(last: Phase, document: string, pushed: Option<string>, active: bool) {
    match last
    case Pushing(doc) => doc == document && pushed != Some(document)
    case Refreshing => active ==> pushed == Some(document)
    case Settled(ending) => active ==> (ending.Done? <==> pushed == Some(document))
    case _ => true
  }

  /** Without a session, something will connect again; a job that broke off left none. */
  predicate WillConnect(last: Phase, link: Link, retryTimer: bool) {
    && (link.session.Some? || retryTimer || Connects(last) || last.Restarting?)
    && (last == Settled(Broken) ==> link.session.None?)
  }

  ghost predicate RestFits(s: State) {
    && (s.queue.jobs == [] ==> s.link.session.None?)
    && (!s.enabled ==> s.queue.jobs == [])
    && (!s.closed && s.queue.pending.None? && s.queue.jobs != [] ==>
          var last := s.queue.jobs[|s.queue.jobs| - 1];
          && PushedFits(last, s.document, s.pushed, Active(s.link))
          && WillConnect(last, s.link, s.retryTimer))
  }

  ghost predicate Sound(s: State) {
    QueueSound(s.queue) && LinkFits(s.link, s.queue, s.closed) && RestFits(s)
  }

  /** Only one job runs, so one that moves is the last unless another one is pending. */
  lemma TheOneRunning(q: Queue, k: nat)
    requires QueueSound(q) && k < |q.jobs| && InBody(q.jobs[k])
    ensures q.pending.None? ==> k == |q.jobs| - 1
    ensures forall i :: 0 <= i < |q.jobs| && i != k ==> !InBody(q.jobs[i])
  {
  }

  lemma AskedFits(s: State)
    requires LinkFits(s.link, s.queue, false)
    ensures LinkFits(s.link, Asked(s.queue), false)
  {
    var q, more := s.queue, Asked(s.queue);
    if s.link.booted && s.link.session.None? {
      var k :| 0 <= k < |q.jobs| && Connects(q.jobs[k]);
      assert Connects(more.jobs[k]);
    }
  }

  /** After sync() on an open app, a job is pending and will look at everything again. */
  lemma SyncedSound(s: State)
    requires QueueSound(s.queue) && LinkFits(s.link, s.queue, s.closed)
    requires s.closed ==> RestFits(s)
    requires s.queue.jobs == [] ==> s.link.session.None?
    requires !s.enabled ==> s.queue.jobs == []
    ensures Sound(Synced(s))
  {
    if !s.closed {
      AskedSound(s.queue);
      AskedFits(s);
    }
  }

  lemma MovedLink(q: Queue, k: nat, phase: Phase, link: Link, closed: bool)
    requires QueueSound(q) && k < |q.jobs| && InBody(q.jobs[k])
    requires link.session.Some? ==> link.booted
    requires Connects(phase) ==> link.session.None? && link.booted
    requires phase.Restarting? ==> link.session.None?
    requires link.booted && link.session.None? ==> Connects(phase)
    ensures LinkFits(link, Moved(q, k, phase), closed)
  {
    TheOneRunning(q, k);
    assert Moved(q, k, phase).jobs[k] == phase;
  }

  /** A running job that moves on leaves all sound if its new phase fits. */
  lemma MoveSound(s: State, next: State, k: nat, phase: Phase)
    requires Sound(s) && k < |s.queue.jobs|
    requires !NotBegun(s.queue.jobs[k]) && !s.queue.jobs[k].Settled? && !NotBegun(phase)
    requires next.queue == Moved(s.queue, k, phase)
    requires next.enabled == s.enabled && next.closed == s.closed
    requires next.link.session.Some? ==> next.link.booted
    requires Connects(phase) ==> next.link.session.None? && next.link.booted
    requires phase.Restarting? ==> next.link.session.None?
    requires next.link.booted && next.link.session.None? ==> Connects(phase)
    requires !s.closed && s.queue.pending.None? ==>
               PushedFits(phase, next.document, next.pushed, Active(next.link)) && WillConnect(phase, next.link, next.retryTimer)
    ensures Sound(next)
  {
    MovedSound(s.queue, k, phase);
    TheOneRunning(s.queue, k);
    MovedLink(s.queue, k, phase, next.link, next.closed);
  }

  /** What is known of a job that runs, and of the link, while no other is pending. */
  lemma WhileRunning(s: State, k: nat)
    requires Sound(s) && k < |s.queue.jobs| && InBody(s.queue.jobs[k])
    ensures !s.closed && s.queue.pending.None? ==>
              PushedFits(s.queue.jobs[k], s.document, s.pushed, Active(s.link)) && WillConnect(s.queue.jobs[k], s.link, s.retryTimer)
    ensures Connects(s.queue.jobs[k]) ==> s.link.session.None? && s.link.booted
    ensures s.queue.jobs[k].Restarting? ==> s.link.session.None?
    ensures s.link.booted && s.link.session.None? ==> Connects(s.queue.jobs[k])
    ensures s.link.session.Some? ==> s.link.booted
  {
    TheOneRunning(s.queue, k);
  }

  lemma AppliedSound(s: State, k: nat)
    requires Sound(s) && At(s.queue, k, Applying)
    ensures Sound(Applied(s, k))
  {
    WhileRunning(s, k);
    var next := Applied(s, k);
    MoveSound(s, next, k, next.queue.jobs[k]);
  }

  lemma RepliedSound(s: State, k: nat, doc: string, reply: Reply)
    requires Sound(s) && At(s.queue, k, Pushing(doc))
    ensures Sound(Replied(s, k, doc, reply))
  {
    WhileRunning(s, k);
    var next := Replied(s, k, doc, reply);
    MoveSound(s, next, k, next.queue.jobs[k]);
  }

  lemma BootFailedSound(s: State, k: nat)
    requires Sound(s) && k < |s.queue.jobs| && Connects(s.queue.jobs[k])
    ensures Sound(BootFailed(s, k))
  {
    WhileRunning(s, k);
    MoveSound(s, BootFailed(s, k), k, Settled(Broken));
  }

  lemma AttachedSound(s: State, k: nat, stale: bool)
    requires Sound(s) && k < |s.queue.jobs| && Connects(s.queue.jobs[k]) && s.link.opening.Some?
    ensures Sound(Attached(s, k, stale))
  {
    WhileRunning(s, k);
    var attached := s.(link := Link(s.link.opening, None, s.link.booted, stale));
    if s.queue.jobs[k].Booting? {
      MoveSound(s, Attached(s, k, stale), k, Applying);
    } else {
      var settled := attached.(queue := Moved(s.queue, k, Settled(Done)));
      MovedSound(s.queue, k, Settled(Done));
      MovedLink(s.queue, k, Settled(Done), settled.link, settled.closed);
      SyncedSound(settled);
    }
  }

  lemma StoppedSound(s: State, k: nat)
    requires Sound(s) && At(s.queue, k, Restarting)
    ensures Sound(DaemonStopped(s, k))
    ensures Sound(Failed(s, k, Broken))
  {
    WhileRunning(s, k);
    MoveSound(s, DaemonStopped(s, k), k, Rebooting);
    MoveSound(s, Failed(s, k, Broken), k, Settled(Broken));
  }

  lemma RefreshedSound(s: State, k: nat)
    requires Sound(s) && At(s.queue, k, Refreshing)
    ensures Sound(s.(queue := Moved(s.queue, k, Settled(Done))))
  {
    WhileRunning(s, k);
    MoveSound(s, s.(queue := Moved(s.queue, k, Settled(Done))), k, Settled(Done));
  }

  /** A job that may start is the last, and the others have settled. */
  lemma AllSettledBefore(q: Queue, k: nat)
    requires QueueSound(q) && MayStart(q, k)
    ensures forall i :: 0 <= i < |q.jobs| && i != k ==> q.jobs[i].Settled?
  {
  }

  lemma TurningSound(s: State, k: nat)
    requires Sound(s) && MayStart(s.queue, k)
    ensures Sound(s.(queue := Moved(s.queue, k, Turning)))
  {
    var q := s.queue;
    BegunSound(q, k, Turning);
    AllSettledBefore(q, k);
  }

  lemma TurnTakenSound(s: State, k: nat)
    requires Sound(s) && At(s.queue, k, Turning)
    ensures Sound(TurnTaken(s, k))
  {
    var phase := if s.link.booted then Applying else Booting;
    BegunSound(s.queue, k, phase);
    WhileRunning(s, k);
    assert TurnTaken(s, k).queue.jobs[k] == phase;
    TheOneRunning(s.queue, k);
  }

  lemma RoleSound(s: State, peer: Peer)
    requires Sound(s)
    ensures Sound(RoleReceived(s, peer))
  {
    var told := if peer.active then s.(pushed := None) else s;
    if s.link.session.Some? {
      var known := told.(link := s.link.(session := Some(peer)));
      if peer.active {
        if !s.closed {
          SyncedSound(known);
        }
      } else {
        assert !Active(known.link);
      }
    } else {
      assert !Active(s.link);
    }
  }

  lemma AloneSound(s: State)
    requires Sound(s)
    ensures Sound(AloneReceived(s))
  {
    if s.link.session.Some? {
      var told := s.(link := s.link.(session := Some(s.link.session.value.(alone := true))));
      assert Active(told.link) == Active(s.link);
      if s.link.stale {
        SyncedSound(told);
      }
    }
  }

  lemma ClosedSound(s: State)
    requires Sound(s)
    ensures Sound(ConnectionClosed(s))
    ensures Sound(s.(closed := true, retryTimer := false))
  {
    assert !Active(ConnectionClosed(s).link);
  }

  lemma TimerSound(s: State)
    requires Sound(s)
    ensures Sound(TimerFired(s))
  {
    if s.retryTimer {
      SyncedSound(s.(retryTimer := false));
    }
  }

  lemma GivenUpSound(s: State)
    requires Sound(s)
    ensures Sound(GivenUp(s))
  {
  }

  lemma StepSound(s: State, e: Event)
    requires Sound(s)
    ensures Sound(Step(s, e))
  {
    match e
    case OnChange(document) =>
      if !s.closed { SyncedSound(s.(document := document)); }
    case OnStart => SyncedSound(s);
    case OnQueueReached(k) =>
      if MayStart(s.queue, k) { TurningSound(s, k); }
    case OnTurn(k) =>
      if At(s.queue, k, Turning) { TurnTakenSound(s, k); }
    case OnAttached(k, stale) =>
      if s.link.opening.Some? && (At(s.queue, k, Booting) || At(s.queue, k, Rebooting)) { AttachedSound(s, k, stale); }
    case OnBootFailed(k) =>
      if At(s.queue, k, Booting) || At(s.queue, k, Rebooting) { BootFailedSound(s, k); }
    case OnApply(k) =>
      if At(s.queue, k, Applying) { AppliedSound(s, k); }
    case OnReply(k, reply) =>
      if k < |s.queue.jobs| && s.queue.jobs[k].Pushing? { RepliedSound(s, k, s.queue.jobs[k].doc, reply); }
    case OnDaemonStopped(k) =>
      if At(s.queue, k, Restarting) { StoppedSound(s, k); }
    case OnStopFailed(k) =>
      if At(s.queue, k, Restarting) { StoppedSound(s, k); }
    case OnRefreshed(k) =>
      if At(s.queue, k, Refreshing) { RefreshedSound(s, k); }
    case OnRole(peer) => RoleSound(s, peer);
    case OnAlone => AloneSound(s);
    case OnClosed => ClosedSound(s);
    case OnTimer => TimerSound(s);
    case OnClose => ClosedSound(s);
    case OnGivenUp => GivenUpSound(s);
  }

  lemma {:induction false} RunSound(enabled: bool, document: string, es: seq<Event>)
    ensures Sound(After(Initial(enabled, document), es))
  {
    if es != [] {
      RunSound(enabled, document, es[..|es| - 1]);
      StepSound(After(Initial(enabled, document), es[..|es| - 1]), es[|es| - 1]);
    }
  }

  /** The app is open, and every job has settled. */
  predicate AtRest(s: State) {
    !s.closed && s.queue.jobs != [] && s.queue.jobs[|s.queue.jobs| - 1].Settled?
  }

  /** A job's phase, Waiting before it is there. */
  function PhaseOf(q: Queue, k: nat): Phase {
    if k < |q.jobs| then q.jobs[k] else Waiting
  }

  function LastJob(q: Queue): nat {
    if q.jobs == [] then 0 else |q.jobs| - 1
  }

  lemma RestOf(s: State)
    requires Sound(s) && AtRest(s)
    ensures Active(s.link) ==> (s.pushed == Some(s.document) <==> PhaseOf(s.queue, LastJob(s.queue)) != Settled(Refused))
    ensures PhaseOf(s.queue, LastJob(s.queue)) == Settled(Broken) ==> s.link.session.None?
    ensures s.link.session.None? ==> s.retryTimer
  {
  }

  /**
    Job k's push was refused, and no restart asked for: by the daemon, or by the
    session itself, which could not send the config or lost its reply.
   */
  predicate PushRefused(start: State, es: seq<Event>, k: nat) {
    es != [] &&
    var before, e := es[..|es| - 1], es[|es| - 1];
    PushRefused(start, before, k)
    || (e == OnReply(k, Rejected(false)) && PhaseOf(After(start, before).queue, k).Pushing?)
  }

  /** Connecting or stopping the daemon failed in job k. */
  predicate BrokeOff(start: State, es: seq<Event>, k: nat) {
    es != [] &&
    var before, e := es[..|es| - 1], es[|es| - 1];
    var phase := PhaseOf(After(start, before).queue, k);
    BrokeOff(start, before, k)
    || (e == OnBootFailed(k) && Connects(phase)) || (e == OnStopFailed(k) && phase.Restarting?)
  }

  lemma QueueLeaves(q: Queue, j: nat, k: nat, phase: Phase)
    ensures PhaseOf(Asked(q), k) == PhaseOf(q, k)
    ensures j < |q.jobs| && j != k ==>
              && PhaseOf(Moved(q, j, phase), k) == PhaseOf(q, k)
              && PhaseOf(Begun(q, j, phase), k) == PhaseOf(q, k)
              && PhaseOf(Asked(Moved(q, j, phase)), k) == PhaseOf(q, k)
  {
  }

  lemma OutsideLeaves(s: State, e: Event, k: nat)
    requires JobOf(e).None?
    ensures PhaseOf(Step(s, e).queue, k) == PhaseOf(s.queue, k)
  {
    QueueLeaves(s.queue, 0, k, Waiting);
    OutsideMoves(s, e);
  }

  /** A step of another job, or of none, leaves a job where it is. */
  lemma StepLeaves(s: State, e: Event, k: nat)
    requires JobOf(e) != Some(k)
    ensures PhaseOf(Step(s, e).queue, k) == PhaseOf(s.queue, k)
  {
    if JobOf(e).None? {
      OutsideLeaves(s, e, k);
    } else {
      var j := JobOf(e).value;
      JobMoves(s, e, j);
      forall phase {
        QueueLeaves(s.queue, j, k, phase);
      }
    }
  }

  /** The phase its own step leaves job k in. */
  function NextPhase(s: State, e: Event, k: nat): Phase
    requires k < |s.queue.jobs|
  {
    var phase := s.queue.jobs[k];
    match e
    case OnQueueReached(_) => if MayStart(s.queue, k) then Turning else phase
    case OnTurn(_) => if phase.Turning? then (if s.link.booted then Applying else Booting) else phase
    case OnAttached(_, _) =>
      if s.link.opening.None? || !Connects(phase) then phase else if phase.Booting? then Applying else Settled(Done)
    case OnBootFailed(_) => if Connects(phase) then Settled(Broken) else phase
    case OnApply(_) =>
      if !phase.Applying? then phase
      else if s.link.session == Some(Peer(true, true)) && s.link.stale then Restarting
      else if Active(s.link) && s.pushed != Some(s.document) then Pushing(s.document)
      else Refreshing
    case OnReply(_, reply) =>
      if !phase.Pushing? then phase
      else if reply.Accepted? then Refreshing else if reply.restart then Restarting else Settled(Refused)
    case OnDaemonStopped(_) => if phase.Restarting? then Rebooting else phase
    case OnStopFailed(_) => if phase.Restarting? then Settled(Broken) else phase
    case OnRefreshed(_) => if phase.Refreshing? then Settled(Done) else phase
    case _ => phase
  }

  lemma ConnectGoes(s: State, e: Event, k: nat)
    requires JobOf(e) == Some(k) && k < |s.queue.jobs|
    requires e.OnAttached? || e.OnBootFailed? || e.OnDaemonStopped? || e.OnStopFailed?
    ensures PhaseOf(Step(s, e).queue, k) == NextPhase(s, e, k)
  {
    var settled := Moved(s.queue, k, Settled(Done));
    assert PhaseOf(Asked(settled), k) == PhaseOf(settled, k);
  }

  lemma JobGoes(s: State, e: Event, k: nat)
    requires JobOf(e) == Some(k) && k < |s.queue.jobs|
    ensures PhaseOf(Step(s, e).queue, k) == NextPhase(s, e, k)
  {
    if e.OnAttached? || e.OnBootFailed? || e.OnDaemonStopped? || e.OnStopFailed? {
      ConnectGoes(s, e, k);
    }
  }

  /** A job that is not there yet takes no step. */
  lemma NoStepYet(s: State, e: Event, k: nat)
    requires JobOf(e) == Some(k) && k >= |s.queue.jobs|
    ensures Step(s, e) == s
  {
  }

  lemma StepEnds(s: State, e: Event, k: nat)
    ensures var before, after := PhaseOf(s.queue, k), PhaseOf(Step(s, e).queue, k);
            && (after == Settled(Refused) <==>
                  before == Settled(Refused) || (e == OnReply(k, Rejected(false)) && before.Pushing?))
            && (after == Settled(Broken) <==>
                  before == Settled(Broken)
                  || (e == OnBootFailed(k) && Connects(before)) || (e == OnStopFailed(k) && before.Restarting?))
  {
    if JobOf(e) != Some(k) {
      StepLeaves(s, e, k);
    } else if k < |s.queue.jobs| {
      JobGoes(s, e, k);
    } else {
      NoStepYet(s, e, k);
    }
  }

  // ----- What counts as pushed -----

  /** A push of this document is accepted. */
  predicate Accepts(s: State, e: Event, doc: string) {
    e.OnReply? && e.reply.Accepted? && At(s.queue, e.job, Pushing(doc))
  }

  /** A push is accepted, or the copy becomes active. */
  predicate Replaces(s: State, e: Event) {
    || (e.OnReply? && e.reply.Accepted? && PhaseOf(s.queue, e.job).Pushing?)
    || (e.OnRole? && e.peer.active)
  }

  /** A push of doc was accepted, and since then no other was, nor did this copy become active. */
  predicate AcceptedLast(start: State, es: seq<Event>, doc: string) {
    es != [] &&
    var before, e := es[..|es| - 1], es[|es| - 1];
    var s := After(start, before);
    Accepts(s, e, doc) || (AcceptedLast(start, before, doc) && !Replaces(s, e))
  }

  lemma StepPushed(s: State, e: Event, doc: string)
    ensures Step(s, e).pushed == Some(doc) <==> Accepts(s, e, doc) || (s.pushed == Some(doc) && !Replaces(s, e))
  {
  }

  /** On every run: what counts as pushed is the document accepted last since this copy became active. */
  lemma {:induction false} PushedExactly(enabled: bool, document: string, es: seq<Event>, doc: string)
    ensures var start := Initial(enabled, document);
            After(start, es).pushed == Some(doc) <==> AcceptedLast(start, es, doc)
  {
    if es != [] {
      PushedExactly(enabled, document, es[..|es| - 1], doc);
      StepPushed(After(Initial(enabled, document), es[..|es| - 1]), es[|es| - 1], doc);
    }
  }

  /** While attach() connects, no push is under way, and a copy told that it is active counts nothing as pushed. */
  ghost predicate OpeningFits(s: State) {
    s.link.opening.Some? ==>
      s.link.booted && s.link.session.None? && (s.link.opening.value.active ==> s.pushed.None?)
  }

  lemma NoPushWhileOpening(s: State, k: nat)
    requires Sound(s) && OpeningFits(s) && s.link.opening.Some?
    ensures !PhaseOf(s.queue, k).Pushing?
  {
    if k < |s.queue.jobs| && s.queue.jobs[k].Pushing? {
      TheOneRunning(s.queue, k);
    }
  }

  lemma StepOpening(s: State, e: Event)
    requires Sound(s) && OpeningFits(s)
    ensures OpeningFits(Step(s, e))
  {
    if e.OnReply? && s.link.opening.Some? {
      NoPushWhileOpening(s, e.job);
    }
  }

  lemma {:induction false} RunOpening(enabled: bool, document: string, es: seq<Event>)
    ensures OpeningFits(After(Initial(enabled, document), es))
  {
    if es != [] {
      RunOpening(enabled, document, es[..|es| - 1]);
      RunSound(enabled, document, es[..|es| - 1]);
      StepOpening(After(Initial(enabled, document), es[..|es| - 1]), es[|es| - 1]);
    }
  }

  /** attach() gets its session. */
  predicate Connected(s: State, e: Event) {
    e.OnAttached? && s.link.opening.Some? && Connects(PhaseOf(s.queue, e.job))
  }

  /** A push of doc was accepted on the present session, and since then no other was, nor did this copy become active. */
  predicate AcceptedHere(start: State, es: seq<Event>, doc: string) {
    es != [] &&
    var before, e := es[..|es| - 1], es[|es| - 1];
    var s := After(start, before);
    Accepts(s, e, doc) || (AcceptedHere(start, before, doc) && !Replaces(s, e) && !Connected(s, e))
  }

  lemma JobActive(s: State, e: Event)
    requires OpeningFits(s) && JobOf(e).Some? && Active(Step(s, e).link)
    ensures if Active(s.link) then !Connected(s, e) else Step(s, e).pushed.None? && Connected(s, e)
  {
  }

  /** A copy gets active by a role on its session, or by a session that opened with one, and nothing counts as pushed then. */
  lemma StepActive(s: State, e: Event)
    requires OpeningFits(s) && Active(Step(s, e).link)
    ensures Active(s.link) ==> !Connected(s, e)
    ensures !Active(s.link) ==> Step(s, e).pushed.None? && (Replaces(s, e) || Connected(s, e))
  {
    if JobOf(e).Some? {
      JobActive(s, e);
    }
  }

  /** An active copy's pushed document was accepted on the session it has. */
  lemma {:induction false} AcceptedOnThisSession(enabled: bool, document: string, es: seq<Event>, doc: string)
    ensures var start := Initial(enabled, document);
            Active(After(start, es).link) ==> (After(start, es).pushed == Some(doc) <==> AcceptedHere(start, es, doc))
  {
    var start := Initial(enabled, document);
    if es != [] && Active(After(start, es).link) {
      var before, e := es[..|es| - 1], es[|es| - 1];
      AcceptedOnThisSession(enabled, document, before, doc);
      RunOpening(enabled, document, before);
      StepActive(After(start, before), e);
      StepPushed(After(start, before), e, doc);
    }
  }

  lemma AfterOne(start: State, es: seq<Event>, e: Event)
    ensures After(start, es + [e]) == Step(After(start, es), e)
  {
    assert (es + [e])[..|es|] == es;
  }

  // ----- How jobs end -----

  /** How a job ended is what its push resolved to, or what failed in it. */
  lemma {:induction false} EndsAsReplied(enabled: bool, document: string, es: seq<Event>, k: nat)
    ensures var start := Initial(enabled, document);
            var phase := PhaseOf(After(start, es).queue, k);
            && (phase == Settled(Refused) <==> PushRefused(start, es, k))
            && (phase == Settled(Broken) <==> BrokeOff(start, es, k))
  {
    if es != [] {
      EndsAsReplied(enabled, document, es[..|es| - 1], k);
      StepEnds(After(Initial(enabled, document), es[..|es| - 1]), es[|es| - 1], k);
    }
  }

  /**
    At rest, an active copy's present document was accepted on the session it
    has, after the role that made it active last, if, and only if, the last
    job's push was not refused. A last job that broke off instead leaves no
    session, and without one the retry timer is set.
   */
  lemma RestMeansPushed(enabled: bool, document: string, es: seq<Event>)
    requires AtRest(After(Initial(enabled, document), es))
    ensures var start := Initial(enabled, document);
            var s := After(start, es);
            var last := LastJob(s.queue);
            && (Active(s.link) ==> (AcceptedHere(start, es, s.document) <==> !PushRefused(start, es, last)))
            && (BrokeOff(start, es, last) ==> s.link.session.None?)
            && (s.link.session.None? ==> s.retryTimer)
  {
    var s := After(Initial(enabled, document), es);
    RunSound(enabled, document, es);
    RestOf(s);
    AcceptedOnThisSession(enabled, document, es, s.document);
    EndsAsReplied(enabled, document, es, LastJob(s.queue));
  }

  /** Once close() has given the session up, nothing connects again and no job comes. */
  lemma {:induction false} ClosedForGood(s: State, later: seq<Event>)
    requires s.closed && AllSettled(s.queue) && s.link.session.None? && !s.retryTimer
    ensures var t := After(s, later);
            t.closed && t.queue.jobs == s.queue.jobs && t.link.session.None? && !t.retryTimer
  {
    if later != [] {
      ClosedForGood(s, later[..|later| - 1]);
      ClosedStep(After(s, later[..|later| - 1]), later[|later| - 1]);
    }
  }

  lemma ClosedStep(s: State, e: Event)
    requires s.closed && AllSettled(s.queue) && s.link.session.None? && !s.retryTimer
    ensures var t := Step(s, e);
            t.closed && t.queue == s.queue && t.link.session.None? && !t.retryTimer
  {
  }

  // ----- What a push leaves behind -----

  /** Job k applied when the app's document was doc. */
  predicate ReadAt(start: State, es: seq<Event>, k: nat, doc: string) {
    es != [] &&
    var before, e := es[..|es| - 1], es[|es| - 1];
    var s := After(start, before);
    ReadAt(start, before, k, doc) || (e == OnApply(k) && At(s.queue, k, Applying) && s.document == doc)
  }

  lemma StepReads(s: State, e: Event, k: nat, doc: string)
    requires At(Step(s, e).queue, k, Pushing(doc))
    ensures At(s.queue, k, Pushing(doc)) || (e == OnApply(k) && At(s.queue, k, Applying) && s.document == doc)
  {
    if JobOf(e) != Some(k) {
      StepLeaves(s, e, k);
    } else if k < |s.queue.jobs| {
      JobGoes(s, e, k);
    } else {
      NoStepYet(s, e, k);
    }
  }

  lemma {:induction false} PushesWhatItRead(enabled: bool, document: string, es: seq<Event>, k: nat, doc: string)
    requires At(After(Initial(enabled, document), es).queue, k, Pushing(doc))
    ensures ReadAt(Initial(enabled, document), es, k, doc)
  {
    if es != [] {
      var s := After(Initial(enabled, document), es[..|es| - 1]);
      StepReads(s, es[|es| - 1], k, doc);
      if At(s.queue, k, Pushing(doc)) {
        PushesWhatItRead(enabled, document, es[..|es| - 1], k, doc);
      }
    }
  }

  /** Neither this copy becomes active again nor is another push accepted. */
  predicate Undisturbed(later: seq<Event>) {
    forall e :: e in later ==> !(e.OnRole? && e.peer.active) && !(e.OnReply? && e.reply.Accepted?)
  }

  lemma StepKeepsPushed(s: State, e: Event)
    requires Undisturbed([e])
    ensures Step(s, e).pushed == s.pushed
  {
    assert e in [e];
  }

  lemma {:induction false} PushedStays(s: State, later: seq<Event>)
    requires Undisturbed(later)
    ensures After(s, later).pushed == s.pushed
  {
    if later != [] {
      var e := later[|later| - 1];
      assert e in later;
      PushedStays(s, later[..|later| - 1]);
      StepKeepsPushed(After(s, later[..|later| - 1]), e);
    }
  }

  /**
    A job whose push is accepted leaves pushed equal to the document it read,
    whatever changed meanwhile and whatever happens next, until this copy
    becomes active again or another push is accepted.
   */
  lemma AcceptedPushIsKept(enabled: bool, document: string, es: seq<Event>, k: nat, doc: string, later: seq<Event>)
    requires At(After(Initial(enabled, document), es).queue, k, Pushing(doc)) && Undisturbed(later)
    ensures var start := Initial(enabled, document);
            && ReadAt(start, es, k, doc)
            && After(Step(After(start, es), OnReply(k, Accepted)), later).pushed == Some(doc)
  {
    PushesWhatItRead(enabled, document, es, k, doc);
    PushedStays(Step(After(Initial(enabled, document), es), OnReply(k, Accepted)), later);
  }

  /** A job that finds nothing to push on an active session leaves pushed equal to the document it read. */
  lemma NothingToPushIsKept(s: State, k: nat, later: seq<Event>)
    requires At(s.queue, k, Applying) && Active(s.link) && Applied(s, k).queue.jobs[k].Refreshing? && Undisturbed(later)
    ensures After(Step(s, OnApply(k)), later).pushed == Some(s.document)
  {
    PushedStays(Step(s, OnApply(k)), later);
  }

  function AtPhase(document: string, phase: Phase): State {
    State(true, false, document, None, Link(Some(Peer(true, false)), None, true, false), false,
          Queue(None, [phase], 1, 1))
  }

  lemma FirstJobBoots(document: string)
    ensures After(Initial(true, document), [OnStart] + [OnQueueReached(0)] + [OnTurn(0)])
            == Initial(true, document).(link := Link(None, None, true, false), queue := Queue(None, [Booting], 1, 1))
  {
    var start := Initial(true, document);
    AfterOne(start, [], OnStart);
    assert [] + [OnStart] == [OnStart];
    AfterOne(start, [OnStart], OnQueueReached(0));
    AfterOne(start, [OnStart] + [OnQueueReached(0)], OnTurn(0));
  }

  lemma FirstJobConnects(document: string)
    ensures After(Initial(true, document), [OnStart] + [OnQueueReached(0)] + [OnTurn(0)] + [OnRole(Peer(true, false))]
                                           + [OnAttached(0, false)]) == AtPhase(document, Applying)
  {
    var start := Initial(true, document);
    var es := [OnStart] + [OnQueueReached(0)] + [OnTurn(0)];
    FirstJobBoots(document);
    AfterOne(start, es, OnRole(Peer(true, false)));
    AfterOne(start, es + [OnRole(Peer(true, false))], OnAttached(0, false));
  }

  /**
    A push refused while the session stays open is not tried again: this app is
    at rest and active, no timer is set, and RunWisp does not have its document.
   */
  lemma RefusedPushStays(document: string)
    ensures exists es :: After(Initial(true, document), es) == AtPhase(document, Settled(Refused))
    ensures var s := AtPhase(document, Settled(Refused));
            AtRest(s) && Active(s.link) && s.pushed.None? && !s.retryTimer
  {
    var start := Initial(true, document);
    var es := [OnStart] + [OnQueueReached(0)] + [OnTurn(0)] + [OnRole(Peer(true, false))] + [OnAttached(0, false)];
    FirstJobConnects(document);
    AfterOne(start, es, OnApply(0));
    assert After(start, es + [OnApply(0)]) == AtPhase(document, Pushing(document));
    AfterOne(start, es + [OnApply(0)], OnReply(0, Rejected(false)));
    assert After(start, es + [OnApply(0)] + [OnReply(0, Rejected(false))]) == AtPhase(document, Settled(Refused));
  }
}
