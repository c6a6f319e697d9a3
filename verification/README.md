# RunWisp: verified model

A Dafny model of the parts of RunWisp where several things happen at once or
where a computation promises something about every input: how an app and the
daemon agree on a config, how callbacks and output are run and relayed, how
services are ordered and stopped, and the caches, pagers and readers beside
them. `dafny verify dfyconfig.toml` checks all of it.

Code that changes state step by step is a class or a method with loops, proved
against a specification function of the same shape; the lemmas then say what
that specification is worth, over every input, every interleaving or every run.

- **Output.** `Pieces` specifies how text is cut into log lines, once for both
  SDKs. `Capture` (JavaScript), `Lines`, `Relay` and `Pump` (PHP) are proved
  against it: nothing depends on chunks, ticks or interleaving, and no unit is
  lost in the cutting. `Characters` says when a cut damages a character.
- **The PHP worker's config protocol.** `Documents` and `Worker` are the
  worker's methods; `Agreement` runs one against the daemon over two FIFO
  channels whose answers carry no id, and `AgreementAtRest` and `WorkerRoles`
  say when the worker is done, and when it restarts RunWisp. The daemon's side follows apps/runwisp/internal/apphost/host.go.
- **The JavaScript runner.** `RunnerSteps`, `RunnerRuns`, `RunnerBounds`,
  `RunnerExits` and `Runner`: each stretch between two awaits is a step, and arrays keep their
  identity.
- **The JavaScript session.** `SessionSteps`, `SessionRuns`, `SessionReplies` and
  `AppSession`: batching, dropping, drop reports, and matching replies by order.
- **The job queue and the push.** `JobSteps`, `JobRuns`, `JobHistory` and
  `JobQueue`, and `PushReplies`, which puts the session's config() under a job's push.
- **Services.** `ServiceOrder`, `DependencyOrder` and `Shutdown`: the
  depth-first order, what it is worth, and the order and time of a shutdown.
- **Caches, pagers and readers.** `CronCache`, `Names`, `LogPages`,
  `LogFollower`, `Dotenv`, `LiveNotify`, and `TaskSteps`, `TaskRuns` and
  `ScheduledTask` for a task's calls to its listeners.

## Where the code falls short of its words

Each of these is a lemma with the exact condition, or a run that shows it.

- Two waiters of one task, woken by the same finished run, can both begin
  (`RunnerRuns.TwoWaiters`): an await lies between the last look at the map and
  the registration. The map loses no callback exactly when every waiter that
  goes on finds it as it left it. `max_concurrent` needs room in the waiter's
  array at that moment as well: two waiters handed one array with one place
  both begin in it (`RunnerBounds.TwoWaitersOnePlace`).
- A reload id heard on a new session while an older session's reload still runs
  is never answered (`Agreement.ReloadLost`); otherwise each is answered once.
- A push that is refused while the session stays open is not tried again
  (`JobRuns.RefusedPushStays`): at rest an active copy's document has been
  accepted exactly when the last job's push was not refused (`JobRuns.RestMeansPushed`);
  every other failure leaves no session, and a retry is timed. The daemon may
  refuse it, and so does the session itself: while it awaits any reply, also that
  to its answer to a reload, or when the connection has ended
  (`PushReplies.PushRefusedExactly`, `PushReplies.ReloadInTheWay`).
- The PHP worker does not try again either (`AgreementAtRest.RejectionStays`):
  its document is out exactly while neither a rejection nor a role heard with a
  config unanswered has followed the last config sent
  (`AgreementAtRest.AtRestExactly`).
- The PHP worker cuts overlong lines at 65536 bytes, and what is not valid UTF-8
  in an item is replaced on its way: a character across a cut is damaged
  (`Characters.CharacterCut`), and no other (`Characters.IntactExactly`).
- stop() and a lost connection miss a waiter between its two awaits, and a
  callback lost from the map (`RunnerRuns.StopReachesExactly`).
- `getNextRuns` with a negative count answers by what happens to be cached
  (`CronCache.CacheInvisibleExactly`).
- A task destroyed by a `task:stopped` listener is announced destroyed twice when
  it is a `destroy()` that stops it (`TaskRuns.DestroyedTwice`), and only then
  (`TaskRuns.AnnouncedOnceExactly`).
- `valid` says of a name that it needs no slug; the slug of a valid name with a
  dash at either end still differs (`Names.SlugIsItself`).
- A run named to `logs -f` both by id and through its task is followed twice
  (`LogFollower.ToldTwice`, `LogFollower.ToldOnceExactly`).

## Model

| member | source | states |
|---|---|---|
| Pieces.PieceEnd | packages/js/src/capture.ts:58-61 | A piece of an overlong text is MAX_PIECE units, in Utf16 one less exactly when a high surrogate would end it, so that no pair is split |
| Pieces.PairsEncode | packages/js/src/capture.ts:58-61 | Two units are a surrogate pair if and only if they encode a code point above 0xffff |
| Pieces.TailSize | packages/js/src/capture.ts:64-72 | A line that went out in pieces leaves a non-empty tail, and a tail is at most a piece long |
| Pieces.ChunkingIndependence | packages/js/src/capture.ts:84-89 | Pushing a and then b sends the same items and holds the same rest as pushing both at once, for either SDK's cutting |
| Pieces.Reassembly | packages/js/src/capture.ts:84-89 | What was sent, with a newline after each non-partial item, and what is held together are the text pushed |
| Pieces.Sizes | packages/js/src/capture.ts:64-89 | Partial pieces are full-sized, lines newline-free and at most a piece, and so is the held text |
| Pieces.Boundaries | packages/js/src/capture.ts:58-72 | No piece boundary falls inside a surrogate pair, for any text, ill-formed ones included |
| Capture.Capture.SendPieces | packages/js/src/capture.ts:64-72 | The loop ends, sends exactly the line's pieces on its stream in order, and returns the tail |
| Capture.Capture.Push | packages/js/src/capture.ts:84-89 | The object's new state is that of the text pushed; the other stream is left alone |
| Capture.Capture.Flush | packages/js/src/capture.ts:92-97 | Both streams' held text goes out as a last line, stdout first, and nothing is held after |
| Capture.ChunksDontMatter | packages/js/src/capture.ts:75-98 | Over any writes on two streams in any chunks: what a stream sent and holds depends only on its whole text |
| Capture.RunIsLogged | packages/js/src/capture.ts:75-98 | A run's log is exactly what it wrote, plus one newline exactly when the text is not empty and its last unit is no newline |
| Capture.RunKeepsPairs | packages/js/src/capture.ts:58-98 | No piece of a run ends inside a surrogate pair of what it wrote |
| Capture.RunIsWellCut | packages/js/src/capture.ts:58-98 | Every item of a run has the size the daemon's limit allows, and so has the held text |
| Lines.Lines.Cut | packages/php/src/Lines.php:57-63 | Cuts the pieces off an overlong line, appending them to the items already out |
| Lines.Lines.Push | packages/php/src/Lines.php:23-37 | Returns and keeps what the shared cutting specification gives for the rest and the new bytes |
| Lines.Lines.Flush | packages/php/src/Lines.php:44-50 | The rest goes out as a partial item, so no newline is invented, and nothing is kept |
| Characters.CutExactly | packages/php/src/Session.php:132-141 | Both parts of a cut UTF-8 text are valid if and only if the byte after the cut continues no character, and so survive encoding with invalid bytes substituted |
| Characters.IntactExactly | packages/php/src/Lines.php:23-63 | In any chunks: every item of a valid UTF-8 output is valid by itself if and only if no byte a whole number of pieces into its line continues a character |
| Characters.CharacterCut | packages/php/src/Lines.php:57-63 | 65535 letters and a letter of two bytes: a valid text whose two items are both invalid |
| Relay.Run.Relay | packages/php/src/Worker.php:652-661 | Appends one output message for each item, in order |
| Relay.Run.Pump | packages/php/src/Worker.php:616-640 | One tick, whatever the child does between its statements: keeps the run's log a byte-exact prefix of the child's output, and reports the exit only after all of it |
| Relay.Run.Finish | packages/php/src/Worker.php:623-639 | The last output of both streams precedes the one exit message, and the run leaves the list |
| Relay.FinishedLog | packages/php/src/Worker.php:616-640 | The messages before the exit are all output, and reassemble per stream to exactly the child's bytes |
| Pump.Runs.PumpOne | packages/php/src/Worker.php:618-639 | One run's turn, whatever its child does meanwhile: only that run's part of the session's messages grows, and a child that had ended is taken off the list |
| Pump.Runs.Pump | packages/php/src/Worker.php:616-640 | The loop over all listed runs: each has its turn, and every run whose child had ended before is off the list |
| Pump.Runs.EachRunWhole | packages/php/src/Worker.php:616-640 | However the runs' messages interleave on the session, each run's part is only output while listed, and then its child's bytes exactly, ended by its one exit |
| Pump.Runs.EachRunIntactExactly | packages/php/src/Worker.php:616-661 | Over any ticks and chunks, the items a run sent of a valid output are all valid if and only if the output has no character across a cut |
| Documents.BuildDocument | packages/php/src/Worker.php:112-132 | The loop collects each unit's table of its kind, and fails exactly when the config defines a unit the code defines too |
| Worker.Session.Messages | packages/php/src/Session.php:163-185 | Role and alone messages take effect when parsed, before any message of the batch is handled |
| Worker.Session.Send | packages/php/src/Session.php:132-141 | Appends to what was written unless the session is closed |
| Worker.Worker.Apply | packages/php/src/Worker.php:536-555 | On an active session, and unless leaving: a daemon noted as stale is restarted if no other copy is attached; otherwise the document is sent when nothing is pending and it differs from the pushed one |
| Worker.Worker.TakeRole | packages/php/src/Worker.php:513-533 | An active copy forgets what was pushed and applies; a standby one notes it |
| Worker.Worker.StartReload | packages/php/src/Worker.php:271-289 | A reload joins the one under way, starts one, or is refused |
| Worker.Worker.Receive | packages/php/src/Worker.php:456-511 | Each message's effect on the whole state, and what is sent in return |
| Worker.Worker.ReceiveOk | packages/php/src/Worker.php:478-491 | The oldest unanswered config is taken on when it was a reload's |
| Worker.Worker.ReceiveError | packages/php/src/Worker.php:492-505 | A rejected reload leaves config and units as they were; a rejected own config may restart RunWisp |
| Worker.Worker.FinishReload | packages/php/src/Worker.php:292-333 | Answers every id of the reload, and awaits one reply for each config sent, unless its session is gone |
| Worker.Worker.AnswerReload | packages/php/src/Worker.php:318-332 | The loop over the ids: one message each in order, one pending entry per config |
| Worker.Worker.Signal | packages/php/src/Worker.php:690-709 | The first signal marks the copy leaving and says so on its session |
| Worker.Worker.Attach | packages/php/src/Worker.php:424-453 | A new session starts with nothing pushed and nothing pending |
| Worker.Worker.Restart | packages/php/src/Worker.php:558-566 | Closes the session and gives it up |
| Worker.Worker.Disconnect | packages/php/src/Worker.php:569-580 | Gives the session up |
| Agreement.StepKeeps | packages/php/src/Worker.php:389-580 | Every step of worker or daemon keeps the agreement invariant |
| Agreement.RunKeeps | packages/php/src/Worker.php:389-580 | The invariant holds in every state of every run |
| Agreement.ConfigsAgree | packages/php/src/Worker.php:536-555 | On an open session of a copy that is not leaving, once none of its configs is pending: what was pushed is the document of the present units and what the daemon applied last from this copy |
| Agreement.AnswersMeetTheirConfigs | packages/php/src/Worker.php:456-511 | On an open session, the unanswered configs on the wire match pending one for one in order, and the answers under way are the daemon's verdicts in the order it decided |
| Agreement.OwnConfigIsOldest | packages/php/src/Worker.php:536-555 | The copy's own config is only ever the oldest unanswered one |
| Agreement.DocumentNeverThrows | packages/php/src/Worker.php:112-132 | No document built in a run of a worker that started valid ever fails |
| Agreement.TasksChangeOnlyByAcceptance | packages/php/src/Worker.php:478-505 | Config and units change only when the daemon accepted them, and a rejection leaves them |
| Agreement.ReloadsAnsweredOnce | packages/php/src/Worker.php:271-333 | With no reload under way on an open session, every id asked on it was answered exactly once if and only if none joined a reload of an earlier session |
| Agreement.ReloadLost | packages/php/src/Worker.php:273-276 | A run in which an id asked on a new session joins the old session's reload and is never answered |
| AgreementAtRest.PushedExactly | packages/php/src/Worker.php:424-555 | In any state of any run of an attached copy that is not leaving: pushed is set if and only if a config was sent on this session and since the last one none was rejected and no role made the copy active while one was unanswered |
| AgreementAtRest.AtRestExactly | packages/php/src/Worker.php:424-555 | On such an open session with no config pending: then, and only then, the present document counts as pushed, and RunWisp runs it from this copy |
| AgreementAtRest.SendsOnlyWhenTold | packages/php/src/Worker.php:456-555 | A worker sends a config only on handling a role or alone message, or at the end of a reload it was asked for |
| AgreementAtRest.RejectionStays | packages/php/src/Worker.php:492-505 | A run that ends quiet, open and active, with nothing pushed and nothing applied: a rejected config is not sent again |
| WorkerRoles.RolesAreKnown | packages/php/src/Session.php:163-185 | In every state of every run, the session counts as active and as alone exactly as the messages read on it last said |
| WorkerRoles.GivesUpExactly | packages/php/src/Worker.php:456-566 | Handling a message gives the session up if and only if it is a role or alone message to a copy that stays and is active, alone and found RunWisp stale, or a rejection of its own config that asks for a restart; nothing is sent then |
| WorkerRoles.RestartsExactly | packages/php/src/Worker.php:456-566 | The same over every run, from what was read on the session and from what attach() found: no restart for staleness while the daemon has not said that no other copy has runs |
| WorkerRoles.OwnConfigExactly | packages/php/src/Worker.php:513-555 | The copy's own config goes out if and only if a role or alone message finds it active, staying, not about to restart RunWisp, with no config pending and its document not the pushed one |
| Agreement.DaemonDecidesKeeps | apps/runwisp/internal/apphost/host.go:356-365 | The daemon's config chain decides configs one at a time in the order they came, which keeps the agreement |
| Agreement.DaemonAnswersKeeps | apps/runwisp/internal/apphost/host.go:625-637 | The answer is written after its config is decided, which keeps the agreement |
| Runner.Runner.Start | packages/js/src/runner.ts:57-68 | One stretch of start and execute: runs, skips, waits or refuses by policy and closing, with the whole new state |
| Runner.Runner.Wake | packages/js/src/runner.ts:135-159 | One turn of the re-check loop: hands over an array with room, or waits on, or leaves when aborted |
| Runner.Runner.Resume | packages/js/src/runner.ts:184-205 | Registers the callback in the array handed over, or reports an aborted wait |
| Runner.Runner.Finish | packages/js/src/runner.ts:206-224 | Removes the callback from its array, drops an empty array from the map, and reports the exit |
| Runner.Runner.AbortWhere | packages/js/src/runner.ts:94-99 | Aborts exactly the matching requests among the running and the waiting |
| Runner.Runner.KillRun | packages/js/src/runner.ts:75-80 | Stops the run and fires the kill of its listed callbacks |
| Runner.Runner.Size | packages/js/src/runner.ts:83-87 | The number of callbacks listed in the map |
| Runner.Runner.Close | packages/js/src/runner.ts:102-107 | Sets closing; resolves at once exactly when the map is empty |
| RunnerRuns.StepIsSound | packages/js/src/runner.ts:57-225 | Every step keeps the arrays, the map and the phases consistent with each other |
| RunnerRuns.ResumeKeepsBooks | packages/js/src/runner.ts:204-205 | Registering keeps every callback in the map if and only if the waiter finds the map as it left it |
| RunnerRuns.BooksExactlyWhenGuarded | packages/js/src/runner.ts:135-225 | Over any mix of starts, stops, disconnects and finishes: the map holds every callback in progress at every step if and only if every waiter that goes on finds the map as it left it |
| RunnerRuns.AtomicHandOffKeepsBooks | packages/js/src/runner.ts:135-225 | With an atomic hand-off, the map's array of a task is its callbacks in progress, never more than max_concurrent for queue and skip |
| RunnerRuns.ResumeBoundedExactly | packages/js/src/runner.ts:149-205 | A resumed waiter keeps the bound on the map's arrays if and only if its array still has room |
| RunnerBounds.BoundExactlyWhenRoomy | packages/js/src/runner.ts:149-205 | Over runs whose waiters find the map as they left it: callbacks in progress stay within max_concurrent at every step if and only if every waiter that goes on finds room in its array |
| RunnerBounds.BooksAndBoundExactly | packages/js/src/runner.ts:135-225 | Over every run: no callback in progress is lost from the map and no queue or skip task exceeds max_concurrent, if and only if every waiter that goes on finds the map as it left it and room in its array |
| RunnerBounds.TwoWaitersOnePlace | packages/js/src/runner.ts:149-205 | With two places and one freed, both waiters are handed the same array: the books stay complete and three callbacks run |
| RunnerRuns.TwoWaiters | packages/js/src/runner.ts:149-205 | A run in which two waiters woken by one finish both begin, over max_concurrent, and size and close then miss one of them |
| RunnerRuns.BooksAreComplete | packages/js/src/runner.ts:162-225 | Under bookkeeping a task's array is its callbacks in progress, each once |
| RunnerRuns.SizeCountsCallbacks | packages/js/src/runner.ts:83-87 | Under bookkeeping, size is the number of callbacks in progress |
| RunnerRuns.ClosingBeginsNothing | packages/js/src/runner.ts:57-63 | Once closing, no callback begins and the number running never grows |
| RunnerRuns.CloseWaitsForAll | packages/js/src/runner.ts:102-107 | Under bookkeeping, an empty map means that no callback runs |
| RunnerRuns.StopReachesExactly | packages/js/src/runner.ts:70-99 | A request looked for and not aborted before is aborted if and only if it waits or its callback is in the map; under bookkeeping, if and only if it waits or runs its callback |
| RunnerRuns.ExitsReportedOnce | packages/js/src/runner.ts:57-225 | Every started run reports at most one exit, exactly one once done, and 143 when its abort fired before |
| RunnerExits.ExitsAreOwed | packages/js/src/runner.ts:57-225 | Over every run, the exits reported are those the steps owe, in order |
| RunnerExits.FinishReportsCode | packages/js/src/runner.ts:66-224 | A run whose callback ended reports the callback's code and nothing else ever, or 143 if it was aborted by then |
| RunnerExits.NeverBegunReports | packages/js/src/runner.ts:57-204 | A run that never begins reports once: 1 while closing, 1 and skipped on a full task that skips overlaps, 143 when aborted while it waited |
| RunnerExits.SkipsExactly | packages/js/src/runner.ts:174-183 | No other step reports a run skipped |
| RunnerExits.BeginsExactly | packages/js/src/runner.ts:162-205 | A callback runs from the step that finds room for it, or a policy that needs none, until its own end |
| RunnerExits.WaitsExactly | packages/js/src/runner.ts:135-204 | A run waits from its start on a full queueing task until a look that finds room, its abort or the closing |
| RunnerExits.FlagsExactly | packages/js/src/runner.ts:70-107 | Which requests each step aborts and kills, and when the runner closes; none of it is ever taken back |
| RunnerExits.KillReachesExactly | packages/js/src/runner.ts:75-80 | A kill reaches the run's callbacks in the map and no others, and aborts what a stop would |
| AppSession.Session.Send | packages/js/src/session.ts:224-231 | Batches, and flushes at the write size or schedules one flush |
| AppSession.Session.Flush | packages/js/src/session.ts:234-240 | Hands the batch to the socket while it takes data, and empties it |
| AppSession.Session.Print | packages/js/src/session.ts:247-262 | Sends the line, or counts it as dropped and sees to a drain listener |
| AppSession.Session.ReportDropped | packages/js/src/session.ts:270-281 | The loop over the map it deletes from: reports exactly the picked runs in order, and keeps the others |
| AppSession.Session.End | packages/js/src/session.ts:264-267 | The run's own report comes before its exit |
| AppSession.Session.PushConfig | packages/js/src/session.ts:290-306 | Settles at once when not connected or one is pending, else flushes and writes the config |
| AppSession.Session.ReceiveReply | packages/js/src/session.ts:357-375 | The oldest waiting reply is settled |
| AppSession.Session.ReceiveReload | packages/js/src/session.ts:386-402 | Answers with the last config, or with an error when there is none or one is awaited |
| AppSession.Session.SocketGone | packages/js/src/session.ts:135-147 | Every waiting reply is settled with an error |
| AppSession.Session.Handle | packages/js/src/session.ts:135-402 | Whatever happens, in whatever order: the session's fields become what the event's specification says, and its invariant is kept |
| SessionRuns.NothingLostOnTheWay | packages/js/src/session.ts:224-306 | Over any events: what the socket got is a prefix of all messages in order, and all but the batch while it takes data, direct config writes included; a batch is below the write size and its flush is owed |
| SessionRuns.FlushedInTime | packages/js/src/session.ts:234-319 | Over every history: after close(), a crash or an owed flush the batch is empty, and every message so far was handed to the socket, in order, if it took data until then |
| SessionRuns.BatchesExactly | packages/js/src/session.ts:224-231 | A message waits until the batch is full, and the first to wait schedules one flush |
| SessionRuns.WritableExactly | packages/js/src/session.ts:234-319 | The socket takes data until the app ends it, it breaks or it closes |
| SessionRuns.EveryLineAccounted | packages/js/src/session.ts:247-281 | Per run: the lines sent are the lines printed in order, less those dropped, and printed = sent + reported + held |
| SessionRuns.ExitIsComplete | packages/js/src/session.ts:264-281 | Right before a run's exit its log has been told of every line lost, and nothing is held for it |
| SessionRuns.DropsWillBeReported | packages/js/src/session.ts:247-281 | A drain listener waits whenever lines are held, and draining reports them all |
| SessionReplies.EachCallSettlesOnce | packages/js/src/session.ts:290-306 | No config() call is settled twice, and after the socket closed every call was settled once |
| SessionReplies.RepliesReachTheirConfig | packages/js/src/session.ts:290-306 | With a daemon that answers in order, at most one config is outstanding, and the k-th reply settles whoever sent the k-th config |
| SessionReplies.ReloadsRepeatTheLastConfig | packages/js/src/session.ts:386-402 | Each reload is answered once, in order, with an error or with the very config sent before it |
| JobQueue.RunWisp.Sync | packages/js/src/runwisp.ts:739-758 | Queues one job unless one is pending, the app is closed or it is disabled |
| JobQueue.RunWisp.Begin | packages/js/src/runwisp.ts:742-746 | After its turn a job clears pending, and boots unless already booted |
| JobQueue.RunWisp.Apply | packages/js/src/runwisp.ts:906-918 | The job of an alone copy with a stale daemon restarts it; otherwise the job pushes a document that differs, or only refreshes |
| JobQueue.RunWisp.TakeReply | packages/js/src/runwisp.ts:921-939 | A reply sets pushed to the document sent, restarts RunWisp, or fails the job |
| JobQueue.RunWisp.Role | packages/js/src/runwisp.ts:812-831 | A copy that becomes active forgets what was pushed, and queues a job on its own session |
| JobQueue.RunWisp.Disconnected | packages/js/src/runwisp.ts:850-857 | The session is given up and a retry is timed |
| JobQueue.RunWisp.RetryLater | packages/js/src/runwisp.ts:765-777 | A retry is timed only while not connected and not closed |
| JobRuns.JobsDoNotOverlap | packages/js/src/runwisp.ts:739-758 | Two job bodies never overlap, and a waiting job may start or waits for one that runs |
| JobRuns.NoChangeIsLost | packages/js/src/runwisp.ts:731-758 | Every change made while open is followed by a job that begins after it, or that is pending |
| JobHistory.PendingExactly | packages/js/src/runwisp.ts:731-758 | On every run a job is pending if and only if a change, a role, a stale daemon left alone, a retry or a restart asked for one since the last job began |
| JobHistory.DocumentIsLast | packages/js/src/runwisp.ts:731-758 | On every run the document is that of the last change before close(), and no retry is timed after it |
| JobHistory.TimerExactly | packages/js/src/runwisp.ts:765-777 | A retry is timed if and only if the connection was lost, or a job failed without one, while open, and neither the timer nor close() came since |
| JobHistory.SessionExactly | packages/js/src/runwisp.ts:475-857 | The copy has a session from when attach() gets one until it is lost, a job restarts RunWisp, or close() is done |
| JobRuns.PushedExactly | packages/js/src/runwisp.ts:812-939 | On every run a document counts as pushed if and only if a push of it was accepted, and since then no other was and no role made this copy active |
| JobRuns.AcceptedOnThisSession | packages/js/src/runwisp.ts:812-939 | While active: if and only if that push was accepted on the session the copy has |
| JobHistory.RolesAreKnown | packages/js/src/runwisp.ts:812-835 | On every run, a session that is there or opening has the role it heard last |
| JobHistory.AppliesExactly | packages/js/src/runwisp.ts:906-918 | A job restarts RunWisp if and only if it was found stale and the copy was last said to be active and alone; otherwise it pushes if and only if the copy is active and its document was not accepted on this session last |
| JobRuns.RestMeansPushed | packages/js/src/runwisp.ts:739-939 | When all jobs have settled on an open app: an active copy's present document was accepted on the session it has, after the last role that made it active, if and only if the last job's push was not refused, by the daemon or by the session itself; a last job that failed otherwise leaves no session, and without one the retry timer is set |
| JobRuns.EndsAsReplied | packages/js/src/runwisp.ts:739-939 | Over any events, a job ends refused exactly when its config() resolved to a rejection without restart, and broken off exactly when its boot or its stop failed |
| PushReplies.ConfigOutcome | packages/js/src/session.ts:290-306 | Over every history: config() is settled once with not connected, or already pending while any reply is awaited, or else the first to come of the daemon's reply and the socket's end |
| PushReplies.PushRefusedExactly | packages/js/src/runwisp.ts:921-939 | A push ends its job refused if and only if the session was not connected, or awaited a reply, or what came first rejects without a restart |
| PushReplies.ReloadInTheWay | packages/js/src/session.ts:297-300 | A job that pushes while a reload's answer is unanswered ends refused, whatever the daemon replies |
| JobRuns.ClosedForGood | packages/js/src/runwisp.ts:475-497 | After close() gave the session up, no job comes, nothing connects and no timer is set, over any events |
| JobRuns.AcceptedPushIsKept | packages/js/src/runwisp.ts:921-939 | A job whose push is accepted leaves pushed equal to the document it read, whatever happens next, until this copy becomes active again or another push is accepted |
| JobRuns.NothingToPushIsKept | packages/js/src/runwisp.ts:906-918 | So does a job that finds nothing to push on an active session |
| JobRuns.RefusedPushStays | packages/js/src/runwisp.ts:765-766 | A reachable state at rest in which a refused push is not tried again |
| ServiceOrder.OrderServicesForStart | apps/runwisp/cmd/runwisp/daemon_services.go:398-409 | The services by priority then name, each once, whatever order the map is ranged over in |
| ServiceOrder.OneOrder | apps/runwisp/cmd/runwisp/daemon_services.go:398-409 | A task set has only one such order |
| ServiceOrder.TopoWalk.Visit | apps/runwisp/cmd/runwisp/daemon_services.go:437-448 | The recursive closure, with the visited map and the slice it grows, does what the specification of the walk says, and ends even on cycles |
| ServiceOrder.TopoStartOrder | apps/runwisp/cmd/runwisp/daemon_services.go:427-453 | Its result is the walk of the one priority order |
| ServiceOrder.OrderServicesForStop | apps/runwisp/cmd/runwisp/daemon_services.go:417-421 | Its result is that order reversed |
| ServiceOrder.TopologicalIsPermutation | apps/runwisp/cmd/runwisp/daemon_services.go:427-453 | Every service exactly once, with or without cycles |
| DependencyOrder.DependenciesFirstExactlyWhenAcyclic | apps/runwisp/cmd/runwisp/daemon_services.go:423-453 | Every dependency precedes its dependents if and only if depends_on has no cycle |
| DependencyOrder.StopOrder | apps/runwisp/cmd/runwisp/daemon_services.go:411-421 | The stop order names every service once, and puts dependents first if and only if there is no cycle |
| Shutdown.PreStopServices | apps/runwisp/cmd/runwisp/daemon_lifecycle.go:276-287 | Tells services in stop order until the deadline, waiting for each that does not refuse |
| Shutdown.GracefulShutdown | apps/runwisp/cmd/runwisp/daemon_lifecycle.go:148-258 | Lasts at most the budget, and tells what the stop pass tells |
| Shutdown.PassInTime | apps/runwisp/cmd/runwisp/daemon_lifecycle.go:276-287 | The services told are a prefix of the stop order, and the pass ends by its deadline |
| Shutdown.BudgetIsTight | apps/runwisp/cmd/runwisp/daemon_lifecycle.go:134-140 | The budget is never exceeded, and is reached by a service that heeds nothing |
| Shutdown.TellsAllInTime | apps/runwisp/cmd/runwisp/daemon_lifecycle.go:276-287 | Every service is told unless the time is up, and each is followed at once when it refused, at the first look that finds it idle, or else when the time is up |
| Shutdown.TimeoutIsAsConfigured | apps/runwisp/cmd/runwisp/daemon_lifecycle.go:112-140 | The pass over services that heed nothing takes the configured timeout, or 3 s when none is, and the budget is twice that and 8 s |
| Shutdown.WaitsNoLonger | apps/runwisp/cmd/runwisp/daemon_lifecycle.go:148-258 | The input layer and the drain take what they need, up to 3 s and the timeout and 5 s |
| Shutdown.OneAtATime | apps/runwisp/cmd/runwisp/daemon_lifecycle.go:276-287 | A service is told only once each one told before was idle or had refused |
| Shutdown.DependentsStopFirst | apps/runwisp/cmd/runwisp/daemon_lifecycle.go:270-287 | Without a cycle, whenever a service is told to stop, all that depend on it were told before and were idle by then or had refused |
| CronCache.CronAnswers.Next | packages/js/src/cron.ts:70-89 | For a count of 0 to 1000 the answer is what the command would give now, above it is refused; other entries are left alone |
| CronCache.CronAnswers.Match | packages/js/src/cron.ts:92-105 | True exactly when the schedule fires in the date's second |
| CronCache.AnswerUnique | apps/runwisp/cmd/runwisp/cmd_sdk_cron.go:112-136 | There is one right answer to a question, so a cached one can be compared with a fresh one |
| CronCache.NextIsFresh | packages/js/src/cron.ts:70-89 | Whatever is cached and whatever the time, a call answers as a fresh ask would |
| CronCache.AsksExactly | packages/js/src/cron.ts:70-89 | The command is asked, for 60 firings at least, if and only if fewer are left in the cache than wanted |
| CronCache.ServedFromCache | packages/js/src/cron.ts:70-89 | Later calls are answered from a list asked for before, until fewer of its firings lie ahead than they want |
| CronCache.MatchIsExact | packages/js/src/cron.ts:92-105 | Whatever is cached, match agrees with the schedule |
| CronCache.CacheInvisibleExactly | packages/js/src/cron.ts:77-88 | The cache never shows if and only if the count is not between -999 and -1 |
| Names.Slug | packages/php/src/Names.php:28-33 | Always 1 to 100 allowed characters |
| Names.AllowedExactly | packages/php/src/Names.php:22-33 | The characters of a name are the letters, the digits and . _ : - |
| Names.RunIsOneDash | packages/php/src/Names.php:28-33 | Each run of other characters becomes one dash, and what is around it stays |
| Names.SlugIsItself | packages/php/src/Names.php:22-33 | A name is its own slug if and only if it is valid and has no dash at either end |
| Names.CandidatesDiffer | packages/php/src/Names.php:43-45 | Two numbers never give the same candidate, whatever is cut off the base |
| Names.CandidateValid | packages/php/src/Names.php:43-45 | A candidate is valid if and only if its number has at most 99 digits |
| Names.CandidateKeepsBase | packages/php/src/Names.php:43-45 | A candidate is the name, cut only as far as its number needs room, a dash and the number |
| Names.Registry.Claim | packages/php/src/Names.php:39-52 | Ends, returns the first free candidate and records it |
| Names.NamesAreDistinct | packages/php/src/Names.php:39-52 | Over any history no name is given twice, and each is valid while fewer than 10^99 - 2 were given |
| LogPages.SinkLines | apps/runwisp/cmd/runwisp/cmd_logs.go:614-622 | The page's lines below end, and the next line to fetch |
| LogPages.Selected | apps/runwisp/cmd/runwisp/cmd_logs.go:333-355 | What -n selects: the last lines, the first ones still on disk, or all |
| LogPages.PrintLogLines | apps/runwisp/cmd/runwisp/cmd_logs.go:307-328 | The loop ends, whatever the run writes meanwhile, and prints what its page-by-page specification says |
| LogPages.PrintsTheSelection | apps/runwisp/cmd/runwisp/cmd_logs.go:304-355 | Over any growth and rotation: lines ascend, are of the selection, and only lines gone from disk by the last request are missing |
| LogPages.FailsExactly | apps/runwisp/cmd/runwisp/cmd_logs.go:307-328 | Printing ends at the first request that fails, and says so if and only if one did |
| LogPages.PrintsExactly | apps/runwisp/cmd/runwisp/cmd_logs.go:304-355 | Without rotation exactly the selection is printed |
| LogFollower.Follower.Start | apps/runwisp/cmd/runwisp/cmd_logs.go:436-452 | Follows or reports each selected run until a log cannot be read |
| LogFollower.Follower.OnEvent | apps/runwisp/cmd/runwisp/cmd_logs.go:464-505 | Follows or reports a new matching run, and ignores any other event |
| LogFollower.Follower.Stop | apps/runwisp/cmd/runwisp/cmd_logs.go:478-484 | Receives exactly as many results as there are streams |
| LogFollower.FollowLogs | apps/runwisp/cmd/runwisp/cmd_logs.go:381-420 | The whole follow, for anything that becomes ready in any order |
| LogFollower.NoStreamLeft | apps/runwisp/cmd/runwisp/cmd_logs.go:381-420 | When it returns, no stream is outstanding |
| LogFollower.HowOftenTold | apps/runwisp/cmd/runwisp/cmd_logs.go:436-505 | A selected run is told of as often as it was selected, a skipped one never, any other at most once |
| LogFollower.ToldOnceExactly | apps/runwisp/cmd/runwisp/cmd_logs.go:436-505 | No run is told of twice over any events if and only if none was selected twice |
| LogFollower.SelectedAreShown | apps/runwisp/cmd/runwisp/cmd_logs.go:436-452 | Over any events, each selected run that has not ended gets one stream and each that has is reported, and nothing else |
| LogFollower.NewRunIsShown | apps/runwisp/cmd/runwisp/cmd_logs.go:464-475 | Over any events, a newly announced run gets one stream and no report if it has started, and one report and no stream if it ended without starting |
| LogFollower.NothingElseIsTold | apps/runwisp/cmd/runwisp/cmd_logs.go:487-505 | A run neither selected nor announced for a matching task is told of never |
| LogFollower.StreamsAreOut | apps/runwisp/cmd/runwisp/cmd_logs.go:381-460 | Until it returns, as many streams are out as were begun and gave no result yet |
| LogFollower.ReturnsExactly | apps/runwisp/cmd/runwisp/cmd_logs.go:381-420 | A follow returns if and only if it is interrupted, a stream failed, the events end, or nothing is left to wait for |
| LogFollower.ToldTwice | apps/runwisp/cmd/runwisp/cmd_logs.go:220-233 | One running run selected through its task and by its id is told of twice |
| LogFollower.EventIsHeeded | apps/runwisp/cmd/runwisp/cmd_logs.go:464-505 | An announced run of a matching task is told of unless it is skipped |
| Dotenv.DotenvUnquote | apps/runwisp/cmd/runwisp/cmd_station.go:145-164 | The scan reads a quoted value up to its closing quote, or says that it is none |
| Dotenv.DotenvValue | apps/runwisp/cmd/runwisp/cmd_station.go:129-140 | A quoted value, else the text up to a comment |
| Dotenv.ParseRunwispDotenv | apps/runwisp/cmd/runwisp/cmd_station.go:112-125 | The loop over lines keeps the RunWisp assignments, later ones over earlier |
| Dotenv.UnquoteUndoes | apps/runwisp/cmd/runwisp/cmd_station.go:145-164 | Escaping and double-quoting any value is undone, whatever follows the closing quote |
| Dotenv.EscapedQuoteStays | apps/runwisp/cmd/runwisp/cmd_station.go:145-164 | An escaped quote closes nothing, not even at the end |
| Dotenv.SingleQuotesKeep | apps/runwisp/cmd/runwisp/cmd_station.go:145-164 | Single quotes keep any value without one as it is |
| Dotenv.TrimsExactly | apps/runwisp/cmd/runwisp/cmd_station.go:112-125 | Trimming takes all the space at both ends and nothing else |
| Dotenv.PlainKeeps | apps/runwisp/cmd/runwisp/cmd_station.go:129-140 | A value without quotes is read as it stands, up to a comment behind a blank |
| Dotenv.QuotesDecide | apps/runwisp/cmd/runwisp/cmd_station.go:129-164 | What follows a closing quote is left out, and a quote that never closes is part of the value |
| Dotenv.CountsExactly | apps/runwisp/cmd/runwisp/cmd_station.go:112-125 | A line with an equals sign counts if and only if its key, without the space around it, has the prefix and no blank |
| Dotenv.ExportGoes | apps/runwisp/cmd/runwisp/cmd_station.go:112-125 | export before a line, and space around either, changes nothing |
| Dotenv.FileRoundTrips | apps/runwisp/cmd/runwisp/cmd_station.go:106-125 | A file of quoted assignments and of other lines is read back as the assignments it was written from |
| ScheduledTask.ScheduledTask.Resume | packages/js/src/scheduled-task.ts:246-251 | start(): from stopped to idle, announced |
| ScheduledTask.ScheduledTask.Halt | packages/js/src/scheduled-task.ts:353-358 | From idle to stopped, announced; false otherwise |
| ScheduledTask.ScheduledTask.Remove | packages/js/src/scheduled-task.ts:259-265 | destroy() up to the listeners it calls first |
| ScheduledTask.ScheduledTask.ListenersReturned | packages/js/src/scheduled-task.ts:259-265 | Once listeners return, the call that emitted goes on, and a destroy() that stopped the task announces it then |
| ScheduledTask.ScheduledTask.EndRun | packages/js/src/scheduled-task.ts:364-401 | A scheduled run that settles leaves the busy count at once, or, when it succeeded as the last one allowed, after the listeners of maxReached and the destroy() that follows |
| TaskRuns.StatusFits | packages/js/src/scheduled-task.ts:218-265 | At any depth of listeners: starts and stops are emitted in turns, destroyed follows its announcement and is for good |
| TaskRuns.AnnouncesExactly | packages/js/src/scheduled-task.ts:218-401 | On every run, which event each call announces and the status it leaves; maxReached if and only if a scheduled run succeeds and as many as allowed have begun |
| TaskRuns.AnnouncedPerDestruction | packages/js/src/scheduled-task.ts:259-265 | Each destroy() of a live task announces it once, now or when its listeners return |
| TaskRuns.AnnouncedOnceExactly | packages/js/src/scheduled-task.ts:218-265 | Once all calls returned, a task was announced destroyed at most once if and only if no listener destroyed it while a destroy() was stopping it |
| TaskRuns.DestroyedTwice | packages/js/src/scheduled-task.ts:259-265 | A task:stopped listener that destroys the task makes it announced twice |
| TaskRuns.RunsAreCounted | packages/js/src/scheduled-task.ts:364-401 | The busy count is the scheduled runs in flight, the run count those ever begun, whatever listeners do |
| TaskRuns.BusyExactly | packages/js/src/scheduled-task.ts:364-401 | The busy count is the scheduled runs begun and not settled, and those settled whose listeners still run |
| TaskRuns.OnceIsCalledOnce | packages/js/src/scheduled-task.ts:335-351 | A once registration is called in at most one dispatch, also when listeners emit again |
| LiveNotify.Notifier.Swap | apps/runwisp/cmd/runwisp/daemon_notify.go:67-87 | swap: next starts before the old service detaches and drains; nothing after Stop |
| LiveNotify.SwapLeavesNoGap | apps/runwisp/cmd/runwisp/daemon_notify.go:60-87 | Replacing a service leaves no moment without a subscriber, and two only inside the swap |
| LiveNotify.StopWaitsForAll | apps/runwisp/cmd/runwisp/daemon_notify.go:95-111 | When Stop has returned nothing drains or hears events, and no swap changes that |
| LiveNotify.StopAdvances | apps/runwisp/cmd/runwisp/daemon_notify.go:95-111 | Stop goes on to wait for the replaced services once its own has stopped and hears nothing, and returns once they have |
| LiveNotify.StopGoesOn | apps/runwisp/cmd/runwisp/daemon_notify.go:95-111 | Stop may return, or a service it waits for may still end |

## Left out

- Agreement.ConfigsAgree: what the daemon applies is compared only until this copy says it leaves, since other copies may then supply the config.
- RunnerRuns.AtomicHandOffKeepsBooks: takes each task's policy as fixed; the source reads it again at each start.
- JobRuns.RestMeansPushed: speaks of jobs that have settled; that each awaited call returns is not part of this model.
- SessionReplies.RepliesReachTheirConfig: takes the daemon to answer configs once each and in order, as Agreement's daemon does.
- CronCache.NextIsFresh: takes a schedule to be a fixed set of whole seconds, which `@every` is not; `explain` and its cache only memoise one ask.
- LogPages.PrintsTheSelection: takes each page to be one consistent look at the log, and line counts to stay below 2^63.
- LogFollower.HowOftenTold: is about a follow whose selected runs could all be read at the start.
- Shutdown.GracefulShutdown: takes waits to end at their deadlines and all other calls to take no time.
- The JSON encoding of messages and documents, UTF-8 decoding of chunks, and log wording. The length of a message's JSON is a parameter.
- Config tables are taken not to set the sdk key themselves.
- A failed or timed-out write of the PHP session is the step that breaks the connection; a signal arrives between two steps.
- Starting a unit the copy does not define, or whose process cannot start.
- The socket's opening and upgrade, role, run, stop and missed messages of the JavaScript session: they only set fields or call handlers.
- Retry delays and their doubling, the daemon's start, launch fingerprints and the process being kept alive.
- Unit names being claimed within one turn, and validation of one unit's config.
- The streams of the log follower are counted, not opened; a stream's own lines and reconnects are not part of this model.
- The scheduler, storage, notification channels and the HTTP server of the daemon.
