/**
  packages/js/src/runwisp.ts over every order of events: what the fields that
  the job queue looks at say of what happened so far.
 */
module JobHistory {
  import opened Wrappers
  import opened JobSteps
  import opened JobRuns

  // ----- Which jobs there are, and what they read -----

  /** Something happens after which the app and the daemon may differ: a job has to look. */
  predicate Asks(s: State, e: Event) {
    s.enabled && !s.closed &&
    match e
    case OnChange(_) => true
    case OnStart => true
    case OnRole(peer) => peer.active && s.link.session.Some?
    case OnAlone => s.link.stale && s.link.session.Some?
    case OnTimer => s.retryTimer
    case OnAttached(k, _) => s.link.opening.Some? && At(s.queue, k, Rebooting)
    case _ => false
  }

  predicate Begins(s: State, e: Event) {
    e.OnTurn? && At(s.queue, e.job, Turning)
  }

  /** Since a job began last, something asked for one. */
  predicate AskedSince(start: State, es: seq<Event>) {
    es != [] &&
    var before, e := es[..|es| - 1], es[|es| - 1];
    Asks(After(start, before), e) || (AskedSince(start, before) && !Begins(After(start, before), e))
  }

  predicate OfConnecting(e: Event) {
    e.OnAttached? || e.OnBootFailed? || e.OnDaemonStopped? || e.OnStopFailed?
  }

  lemma ConnectingPending(s: State, e: Event)
    requires OfConnecting(e)
    ensures Step(s, e).queue.pending.Some? <==> Asks(s, e) || s.queue.pending.Some?
  {
  }

  lemma JobPending(s: State, e: Event)
    requires JobOf(e).Some? && !OfConnecting(e)
    ensures Step(s, e).queue.pending.Some? <==> s.queue.pending.Some? && !Begins(s, e)
  {
  }

  lemma StepPending(s: State, e: Event)
    ensures Step(s, e).queue.pending.Some? <==> Asks(s, e) || (s.queue.pending.Some? && !Begins(s, e))
  {
    if OfConnecting(e) {
      ConnectingPending(s, e);
    } else if JobOf(e).Some? {
      JobPending(s, e);
    }
  }

  /** On every run, a job is pending exactly when one was asked for since the last began: none is lost, and none is idle. */
  lemma {:induction false} PendingExactly(enabled: bool, document: string, es: seq<Event>)
    ensures var start := Initial(enabled, document);
            After(start, es).queue.pending.Some? <==> AskedSince(start, es)
  {
    if es != [] {
      PendingExactly(enabled, document, es[..|es| - 1]);
      StepPending(After(Initial(enabled, document), es[..|es| - 1]), es[|es| - 1]);
    }
  }

  predicate Closes(es: seq<Event>) {
    exists i :: 0 <= i < |es| && es[i].OnClose?
  }

  /** The document of the last change made before the app closed. */
  function LastDocument(document: string, es: seq<Event>): string {
    if es == [] then document
    else
      var before, e := es[..|es| - 1], es[|es| - 1];
      if e.OnChange? && !Closes(before) then e.document else LastDocument(document, before)
  }

  lemma StepDocument(s: State, e: Event)
    ensures Step(s, e).document == if e.OnChange? && !s.closed then e.document else s.document
    ensures Step(s, e).closed <==> s.closed || e.OnClose?
    ensures Step(s, e).closed && (s.closed ==> !s.retryTimer) ==> !Step(s, e).retryTimer
  {
  }

  /** On every run: the document is that of the last change before close(), and no retry is timed after it. */
  lemma {:induction false} DocumentIsLast(enabled: bool, document: string, es: seq<Event>)
    ensures var s := After(Initial(enabled, document), es);
            && s.document == LastDocument(document, es)
            && (s.closed <==> Closes(es))
            && (s.closed ==> !s.retryTimer)
  {
    if es != [] {
      var before, e := es[..|es| - 1], es[|es| - 1];
      DocumentIsLast(enabled, document, before);
      StepDocument(After(Initial(enabled, document), before), e);
      assert forall i :: 0 <= i < |before| ==> es[i] == before[i];
      assert Closes(es) <==> Closes(before) || e.OnClose?;
    }
  }

  /** The job of this step fails. */
  predicate Fails(s: State, e: Event) {
    || (e.OnBootFailed? && Connects(PhaseOf(s.queue, e.job)))
    || (e.OnStopFailed? && At(s.queue, e.job, Restarting))
    || (e.OnReply? && e.reply == Rejected(false) && PhaseOf(s.queue, e.job).Pushing?)
  }

  /** On an open app the connection is lost, or a job fails without one. */
  predicate SetsTimer(s: State, e: Event) {
    !s.closed && ((e.OnClosed? && s.link.session.Some?) || (Fails(s, e) && s.link.session.None?))
  }

  predicate TimerIsSet(start: State, es: seq<Event>) {
    es != [] &&
    var before, e := es[..|es| - 1], es[|es| - 1];
    SetsTimer(After(start, before), e) || (TimerIsSet(start, before) && !e.OnTimer? && !e.OnClose?)
  }

  lemma JobTimer(s: State, e: Event)
    requires JobOf(e).Some?
    ensures Step(s, e).retryTimer <==> SetsTimer(s, e) || s.retryTimer
  {
  }

  lemma StepTimer(s: State, e: Event)
    ensures Step(s, e).retryTimer <==> SetsTimer(s, e) || (s.retryTimer && !e.OnTimer? && !e.OnClose?)
  {
    if JobOf(e).Some? {
      JobTimer(s, e);
    }
  }

  /** On every run, a retry is timed exactly when the connection was lost, or a job failed without one, and neither it nor close() came since. */
  lemma {:induction false} TimerExactly(enabled: bool, document: string, es: seq<Event>)
    ensures var start := Initial(enabled, document); After(start, es).retryTimer <==> TimerIsSet(start, es)
  {
    if es != [] {
      TimerExactly(enabled, document, es[..|es| - 1]);
      StepTimer(After(Initial(enabled, document), es[..|es| - 1]), es[|es| - 1]);
    }
  }

  // ----- Roles -----

  /** What the daemon said of this copy last. */
  function LastPeer(es: seq<Event>): Peer {
    if es == [] then Peer(false, false)
    else
      match es[|es| - 1]
      case OnRole(peer) => peer
      case OnAlone => LastPeer(es[..|es| - 1]).(alone := true)
      case _ => LastPeer(es[..|es| - 1])
  }

  ghost predicate PeerFits(link: Link, peer: Peer) {
    && (link.session.Some? ==> link.session.value == peer)
    && (link.opening.Some? ==> link.opening.value == peer)
  }

  lemma JobPeer(s: State, e: Event, peer: Peer)
    requires PeerFits(s.link, peer) && JobOf(e).Some?
    ensures PeerFits(Step(s, e).link, peer)
  {
  }

  lemma StepPeer(s: State, e: Event, before: Peer, after: Peer)
    requires OpeningFits(s) && PeerFits(s.link, before)
    requires after == if e.OnRole? then e.peer else if e.OnAlone? then before.(alone := true) else before
    ensures PeerFits(Step(s, e).link, after)
  {
    if JobOf(e).Some? {
      JobPeer(s, e, before);
    }
  }

  /** On every run, a session that is there or opening has the role it heard last. */
  lemma {:induction false} RolesAreKnown(enabled: bool, document: string, es: seq<Event>)
    ensures PeerFits(After(Initial(enabled, document), es).link, LastPeer(es))
  {
    if es != [] {
      var before, e := es[..|es| - 1], es[|es| - 1];
      RolesAreKnown(enabled, document, before);
      RunOpening(enabled, document, before);
      StepPeer(After(Initial(enabled, document), before), e, LastPeer(before), LastPeer(es));
    }
  }

  /** A connection that attach() waits for has heard its role, and neither became the session nor failed. */
  predicate RoleIsHeard(start: State, es: seq<Event>) {
    es != [] &&
    var before, e := es[..|es| - 1], es[|es| - 1];
    var s := After(start, before);
    || (e.OnRole? && s.link.booted && s.link.session.None?)
    || (RoleIsHeard(start, before) && !Connected(s, e) && !(e.OnBootFailed? && Connects(PhaseOf(s.queue, e.job))))
  }

  lemma JobOpening(s: State, e: Event)
    requires OpeningFits(s) && Sound(s) && JobOf(e).Some?
    ensures Step(s, e).link.opening.Some? <==>
              s.link.opening.Some? && !Connected(s, e) && !(e.OnBootFailed? && Connects(PhaseOf(s.queue, e.job)))
  {
    if e.OnDaemonStopped? && At(s.queue, e.job, Restarting) {
      TheOneRunning(s.queue, e.job);
    } else if e.OnTurn? && At(s.queue, e.job, Turning) {
      TheOneRunning(s.queue, e.job);
    }
  }

  lemma {:induction false} OpeningExactly(enabled: bool, document: string, es: seq<Event>)
    ensures var start := Initial(enabled, document); After(start, es).link.opening.Some? <==> RoleIsHeard(start, es)
  {
    if es != [] {
      var before, e := es[..|es| - 1], es[|es| - 1];
      OpeningExactly(enabled, document, before);
      RunSound(enabled, document, before);
      RunOpening(enabled, document, before);
      if JobOf(e).Some? {
        JobOpening(After(Initial(enabled, document), before), e);
      }
    }
  }

  /** The daemon was found stale by the session that opened last, and was not restarted for it since. */
  predicate KnownStale(start: State, es: seq<Event>) {
    es != [] &&
    var before, e := es[..|es| - 1], es[|es| - 1];
    var s := After(start, before);
    if Connected(s, e) then e.stale
    else KnownStale(start, before)
         && !(e.OnApply? && At(s.queue, e.job, Applying) && s.link.session == Some(Peer(true, true)) && s.link.stale)
  }

  lemma JobStale(s: State, e: Event)
    requires JobOf(e).Some? && !e.OnAttached?
    ensures Step(s, e).link.stale <==>
              s.link.stale && !(e.OnApply? && At(s.queue, e.job, Applying) && s.link.session == Some(Peer(true, true)))
  {
  }

  lemma StepStale(s: State, e: Event)
    ensures Step(s, e).link.stale <==>
              if Connected(s, e) then e.stale
              else s.link.stale && !(e.OnApply? && At(s.queue, e.job, Applying) && s.link.session == Some(Peer(true, true)))
  {
    if JobOf(e).Some? && !e.OnAttached? {
      JobStale(s, e);
    }
  }

  lemma {:induction false} StaleIsKnown(enabled: bool, document: string, es: seq<Event>)
    ensures var start := Initial(enabled, document); After(start, es).link.stale <==> KnownStale(start, es)
  {
    if es != [] {
      StaleIsKnown(enabled, document, es[..|es| - 1]);
      StepStale(After(Initial(enabled, document), es[..|es| - 1]), es[|es| - 1]);
    }
  }

  /** The connection is lost, a job restarts the daemon, or close() is done. */
  predicate EndsSession(s: State, e: Event) {
    || e.OnClosed?
    || (e.OnApply? && At(s.queue, e.job, Applying) && s.link.session == Some(Peer(true, true)) && s.link.stale)
    || (e.OnReply? && e.reply == Rejected(true) && PhaseOf(s.queue, e.job).Pushing?)
    || (e.OnGivenUp? && s.closed && AllSettled(s.queue))
  }

  predicate SessionIsThere(start: State, es: seq<Event>) {
    es != [] &&
    var before, e := es[..|es| - 1], es[|es| - 1];
    Connected(After(start, before), e) || (SessionIsThere(start, before) && !EndsSession(After(start, before), e))
  }

  lemma JobSession(s: State, e: Event)
    requires JobOf(e).Some?
    ensures Step(s, e).link.session.Some? <==> Connected(s, e) || (s.link.session.Some? && !EndsSession(s, e))
  {
  }

  lemma StepSession(s: State, e: Event)
    ensures Step(s, e).link.session.Some? <==> Connected(s, e) || (s.link.session.Some? && !EndsSession(s, e))
  {
    if JobOf(e).Some? {
      JobSession(s, e);
    }
  }

  /** On every run, this copy has a session from when attach() gets one until it is lost, the daemon restarts, or close() is done. */
  lemma {:induction false} SessionExactly(enabled: bool, document: string, es: seq<Event>)
    ensures var start := Initial(enabled, document); After(start, es).link.session.Some? <==> SessionIsThere(start, es)
  {
    if es != [] {
      SessionExactly(enabled, document, es[..|es| - 1]);
      StepSession(After(Initial(enabled, document), es[..|es| - 1]), es[|es| - 1]);
    }
  }

  /**
    When a job applies: it restarts the daemon exactly if that was stale when the
    session opened and the daemon said last that this copy is active and alone;
    it pushes exactly if the copy is active and its document not the pushed one.
   */
  lemma AppliesExactly(enabled: bool, document: string, es: seq<Event>, k: nat)
    requires At(After(Initial(enabled, document), es).queue, k, Applying)
    ensures var start := Initial(enabled, document);
            var s, phase := After(start, es), PhaseOf(After(start, es + [OnApply(k)]).queue, k);
            var restarts := s.link.session.Some? && LastPeer(es) == Peer(true, true) && KnownStale(start, es);
            && (phase == Restarting <==> restarts)
            && (phase.Pushing? <==> !restarts && s.link.session.Some? && LastPeer(es).active && !AcceptedHere(start, es, s.document))
            && (phase.Pushing? ==> phase.doc == s.document)
  {
    var start := Initial(enabled, document);
    var s := After(start, es);
    AfterOne(start, es, OnApply(k));
    RolesAreKnown(enabled, document, es);
    StaleIsKnown(enabled, document, es);
    AcceptedOnThisSession(enabled, document, es, s.document);
    JobGoes(s, OnApply(k), k);
  }
}
