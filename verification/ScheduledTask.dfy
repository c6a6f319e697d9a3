/**
  packages/js/src/scheduled-task.ts, the ScheduledTask class itself. A call that
  emits stops where its listeners begin, and goes on in ListenersReturned; in
  between, the handle may be called again. TaskRuns says what that is worth.
 */
module ScheduledTask {
  import opened Wrappers
  import opened TaskSteps
  import R = TaskRuns

  class ScheduledTask {
    const max: Option<int>
    var status: Status
    var busy: int
    var runs: nat
    var calls: seq<Frame>
    ghost var log: seq<Emitted>

    ghost function View(): State
      reads this
    {
      State(status, busy, runs, calls, log)
    }

    ghost predicate Valid()
      reads this
    {
      R.Sound(View())
    }

    constructor (max: Option<int>)
      ensures Valid() && View() == INITIAL && this.max == max
    {
      this.max := max;
      status, busy, runs, calls, log := Stopped, 0, 0, [], [];
      new;
      assert R.Times([], TaskDestroyed) == 0 && Count([], Finishing) == 0;
    }

    /** dispatch(): from here on, listeners run. */
    method Emit(event: Emitted, left: Frame)
      modifies `calls, `log
      ensures View() == Emitting(old(View()), event, left)
    {
      calls := calls + [left];
      log := log + [event];
    }

    method Resume()
      requires Valid()
      modifies `status, `calls, `log
      ensures Valid() && View() == Start(old(View()))
    {
      R.StepSound(View(), OnStart, max);
      if status != Stopped {
        return;
      }
      status := Idle;
      Emit(TaskStarted, Plain);
    }

    method Halt(left: Frame) returns (halted: bool)
      modifies `status, `calls, `log
      ensures halted == old(status).Idle?
      ensures View() == if halted then Emitting(old(View()).(status := Stopped), TaskStopped, left) else old(View())
    {
      if status != Idle {
        return false;
      }
      status := Stopped;
      Emit(TaskStopped, left);
      halted := true;
    }

    method Pause()
      requires Valid()
      modifies `status, `calls, `log
      ensures Valid() && View() == Stop(old(View()))
    {
      R.StepSound(View(), OnStop, max);
      var halted := Halt(Plain);
    }

    /** destroy() and retire(), up to the listeners they call first. */
    method Remove()
      modifies `status, `calls, `log
      ensures View() == Destroy(old(View())) && (old(Valid()) ==> Valid())
    {
      if Valid() {
        R.StepSound(View(), OnDestroy, max);
      }
      if status == Destroyed {
        return;
      }
      var halted := Halt(Destroying);
      if !halted {
        FinishRemove();
      }
    }

    method FinishRemove()
      modifies `status, `calls, `log
      ensures View() == DestroyedNow(old(View()))
    {
      status := Destroyed;
      Emit(TaskDestroyed, Plain);
    }

    /** The innermost call goes on after its listeners. */
    method ListenersReturned()
      requires Valid() && calls != []
      modifies `status, `busy, `calls, `log
      ensures Valid() && View() == Return(old(View()))
    {
      R.StepSound(View(), OnReturn, max);
      var left := calls[|calls| - 1];
      calls := calls[..|calls| - 1];
      match left {
        case Plain =>
        case Destroying => FinishRemove();
        case Reaching => Remove();
        case Finishing => busy := busy - 1;
      }
    }

    method BeginRun(scheduled: bool)
      requires Valid()
      modifies `busy, `runs
      ensures Valid() && View() == Begin(old(View()), scheduled)
    {
      R.StepSound(View(), OnBegin(scheduled), max);
      if scheduled {
        busy := busy + 1;
        runs := runs + 1;
      }
    }

    /** After the callback: maxExecutions counts every scheduled run so far. */
    method EndRun(succeeded: bool)
      requires Valid() && MaySettle(View(), true)
      modifies `busy, `calls, `log
      ensures Valid() && View() == Settle(old(View()), true, succeeded, max)
    {
      R.StepSound(View(), OnSettle(true, succeeded), max);
      if succeeded && max.Some? && max.value > 0 && runs >= max.value {
        calls := calls + [Finishing];
        Emit(MaxReached, Reaching);
      } else {
        busy := busy - 1;
      }
    }

    /** getStatus(): a task with scheduled runs in flight is running only while it is idle. */
    method GetStatus() returns (shown: string)
      ensures shown == "running" <==> busy > 0 && status.Idle?
      ensures shown == "destroyed" <==> status.Destroyed?
      ensures shown == "stopped" <==> status.Stopped?
    {
      if busy > 0 && status == Idle {
        return "running";
      }
      match status {
        case Stopped => shown := "stopped";
        case Idle => shown := "idle";
        case Destroyed => shown := "destroyed";
      }
    }
  }
}
