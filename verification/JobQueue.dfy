/**
  packages/js/src/runwisp.ts: the methods of RunWisp that queue, connect and
  push. They do what the state machine says; JobRuns says what that is worth.
 */
module JobQueue {
  import opened Wrappers
  import opened JobSteps
  import R = JobRuns

  /**
    The fields these methods use. A promise of the queue is its index in jobs;
    enabled, document() and the connection's last role are fields too.
   */
  class RunWisp {
    const enabled: bool
    var closed: bool
    var document: string
    var pushed: Option<string>
    var session: Option<Peer>
    var opening: Option<Peer>
    var booted: bool
    var stale: bool
    var retryTimer: bool
    var pending: Option<nat>
    var jobs: seq<Phase>
    ghost var changes: nat
    ghost var seen: nat

    ghost function Line(): Queue
      reads this
    {
      Queue(pending, jobs, changes, seen)
    }

    ghost function Wire(): Link
      reads this
    {
      Link(session, opening, booted, stale)
    }

    ghost function View(): State
      reads this
    {
      State(enabled, closed, document, pushed, Wire(), retryTimer, Line())
    }

    /** What every state between two awaits keeps: JobRuns says what it means. */
    ghost predicate Valid()
      reads this
    {
      R.Sound(View())
    }

    constructor (enabled: bool, document: string)
      ensures Valid() && View() == Initial(enabled, document)
    {
      this.enabled, this.document := enabled, document;
      closed, pushed, session, opening, booted, stale := false, None, None, None, false, false;
      retryTimer, pending, jobs, changes, seen := false, None, [], 0, 0;
    }

    method Sync()
      modifies `pending, `jobs, `changes
      ensures View() == Synced(old(View())) && (old(Valid()) ==> Valid())
    {
      if Valid() {
        R.StepSound(View(), OnStart);
      }
      if !enabled || closed {
        return;
      }
      changes := changes + 1;
      if pending.None? {
        pending := Some(|jobs|);
        jobs := jobs + [Waiting];
      }
    }

    /** A unit is added or changed, which a closed app refuses. */
    method Change(document: string)
      requires Valid()
      modifies `document, `pending, `jobs, `changes
      ensures Valid() && View() == Changed(old(View()), document)
    {
      R.StepSound(View(), OnChange(document));
      if closed {
        return;
      }
      this.document := document;
      Sync();
    }

    method RetryLater()
      modifies `retryTimer
      ensures View() == RetriedLater(old(View()))
    {
      if closed || session.Some? {
        return;
      }
      retryTimer := true;
    }

    /** The queue's catch handler. */
    method Fail(k: nat, ending: Ending)
      requires k < |jobs|
      modifies `jobs, `retryTimer
      ensures View() == Failed(old(View()), k, ending)
    {
      jobs := jobs[k := Settled(ending)];
      RetryLater();
    }

    /** After nextTurn(): clears pending, and boots unless already booted. */
    method Begin(k: nat)
      requires Valid() && At(Line(), k, Turning)
      modifies `pending, `jobs, `booted, `opening, `seen
      ensures Valid() && View() == TurnTaken(old(View()), k)
    {
      R.StepSound(View(), OnTurn(k));
      pending := None;
      seen := changes;
      if booted {
        jobs := jobs[k := Applying];
      } else {
        booted, opening := true, None;
        jobs := jobs[k := Booting];
      }
    }

    /** attach() got its session; restart() then asks for a job, boot() goes on to apply(). */
    method Attach(k: nat, stale: bool)
      requires Valid() && k < |jobs| && (jobs[k].Booting? || jobs[k].Rebooting?) && opening.Some?
      modifies `session, `opening, `stale, `pending, `jobs, `changes
      ensures Valid() && View() == Attached(old(View()), k, stale)
    {
      R.AttachedSound(View(), k, stale);
      session, opening, this.stale := opening, None, stale;
      if jobs[k].Booting? {
        jobs := jobs[k := Applying];
      } else {
        jobs := jobs[k := Settled(Done)];
        Sync();
      }
    }

    method FailBoot(k: nat)
      requires Valid() && k < |jobs| && (jobs[k].Booting? || jobs[k].Rebooting?)
      modifies `booted, `opening, `jobs, `retryTimer
      ensures Valid() && View() == BootFailed(old(View()), k)
    {
      R.BootFailedSound(View(), k);
      booted, opening := false, None;
      Fail(k, Broken);
    }

    method Restart(k: nat)
      requires k < |jobs|
      modifies `session, `booted, `jobs
      ensures View() == Restarted(old(View()), k)
    {
      session, booted := None, false;
      jobs := jobs[k := Restarting];
    }

    method Apply(k: nat)
      requires Valid() && At(Line(), k, Applying)
      modifies `session, `booted, `stale, `jobs
      ensures Valid() && View() == Applied(old(View()), k)
    {
      R.AppliedSound(View(), k);
      var active := session.Some? && session.value.active;
      if active && session.value.alone && stale {
        stale := false;
        Restart(k);
        return;
      }
      var pushes := active && Some(document) != pushed;
      jobs := jobs[k := if pushes then Pushing(document) else Refreshing];
    }

    /** push() after the session's config() has settled. */
    method TakeReply(k: nat, doc: string, reply: Reply)
      requires Valid() && At(Line(), k, Pushing(doc))
      modifies `pushed, `session, `booted, `jobs, `retryTimer
      ensures Valid() && View() == Replied(old(View()), k, doc, reply)
    {
      R.RepliedSound(View(), k, doc, reply);
      if reply.Accepted? {
        pushed := Some(doc);
        jobs := jobs[k := Refreshing];
        return;
      }
      if reply.restart {
        Restart(k);
        return;
      }
      Fail(k, Refused);
    }

    method Role(peer: Peer)
      requires Valid()
      modifies `pushed, `session, `opening, `pending, `jobs, `changes
      ensures Valid() && View() == RoleReceived(old(View()), peer)
    {
      R.RoleSound(View(), peer);
      var current := session.Some?;
      if current {
        session := Some(peer);
      } else if booted {
        opening := Some(peer);
      }
      if !peer.active {
        return;
      }
      pushed := None;
      if current {
        Sync();
      }
    }

    method Alone()
      requires Valid()
      modifies `session, `opening, `pending, `jobs, `changes
      ensures Valid() && View() == AloneReceived(old(View()))
    {
      R.AloneSound(View());
      if session.Some? {
        session := Some(session.value.(alone := true));
        if stale {
          Sync();
        }
      } else if opening.Some? {
        opening := Some(opening.value.(alone := true));
      }
    }

    method Disconnected()
      requires Valid()
      modifies `session, `booted, `retryTimer
      ensures Valid() && View() == ConnectionClosed(old(View()))
    {
      R.ClosedSound(View());
      if session.None? {
        return;
      }
      session, booted := None, false;
      RetryLater();
    }

    method Timer()
      requires Valid()
      modifies `retryTimer, `pending, `jobs, `changes
      ensures Valid() && View() == TimerFired(old(View()))
    {
      R.TimerSound(View());
      if retryTimer {
        retryTimer := false;
        Sync();
      }
    }

    /** The queue has reached a job, which first waits for the next turn. */
    method ReachTurn(k: nat)
      requires Valid() && MayStart(Line(), k)
      modifies `jobs
      ensures Valid() && View() == Step(old(View()), OnQueueReached(k))
    {
      R.StepSound(View(), OnQueueReached(k));
      jobs := jobs[k := Turning];
    }

    /** restart() once the daemon has stopped: boots again. */
    method BootAgain(k: nat)
      requires Valid() && At(Line(), k, Restarting)
      modifies `jobs, `booted, `opening
      ensures Valid() && View() == DaemonStopped(old(View()), k)
    {
      R.StoppedSound(View(), k);
      booted, opening := true, None;
      jobs := jobs[k := Rebooting];
    }

    method FailStop(k: nat)
      requires Valid() && At(Line(), k, Restarting)
      modifies `jobs, `retryTimer
      ensures Valid() && View() == Failed(old(View()), k, Broken)
    {
      R.StoppedSound(View(), k);
      Fail(k, Broken);
    }

    /** The job's last await. */
    method EndRefresh(k: nat)
      requires Valid() && At(Line(), k, Refreshing)
      modifies `jobs
      ensures Valid() && View() == Step(old(View()), OnRefreshed(k))
    {
      R.RefreshedSound(View(), k);
      jobs := jobs[k := Settled(Done)];
    }

    /** close() up to its first await. */
    method Close()
      requires Valid()
      modifies `closed, `retryTimer
      ensures Valid() && View() == Step(old(View()), OnClose)
    {
      R.ClosedSound(View());
      closed, retryTimer := true, false;
    }

    /** The end of close(): its queue has settled, and its callbacks have returned. */
    method GiveUp()
      requires Valid() && closed && AllSettled(Line())
      modifies `session
      ensures Valid() && View() == Step(old(View()), OnGivenUp)
    {
      R.GivenUpSound(View());
      session := None;
    }
  }
}
