# Verified model of the relay's hard core

The repository relays a coding agent's sessions to browsers: a server beside the agent,
a client in the page, and an assistant that also runs jobs on a schedule. These Dafny
modules model the parts of it whose correctness is decided by state and arithmetic, and
prove what those parts are for. `dafny verify dfyconfig.toml` checks all of it.

| module | component |
|---|---|
| `TimeZones`, `Cron`, `Planner` | local times and instants, the two occurrence searches, and the planner of scheduled jobs |
| `Scheduler`, `SchedulerRuns`, `SchedulerSteps` | the firing loop of the assistant's scheduler, what holds of its runs, and what each step sends and records |
| `Upload`, `UploadProtocol`, `UploadPacing`, `UploadEnds` | one chunked upload in the client, the protocol it makes with the server over sockets that come and go, its pace, and that it comes to its end |
| `SessionSelection`, `SessionRuns` | which session the client waits for and shows, and what taps, reconnects and late replies can do to it |
| `ReplyRouting`, `RoutingRuns`, `AgentRuns` | the origins of sent messages, the agent's own queues they shadow, and runs of an agent that decides by itself |
| `JsonlReader`, `History`, `HistoryEntries`, `TranscriptWindow`, `TranscriptPages` | reading a transcript in chunks, what its entries say, one window of its history, and paging back through it |
| `HistoryPairing` | pairing tool results with tool calls for display |
| `FrameChunks` | splitting a frame and reassembling it |
| `DeltaCoalescer` | merging streamed deltas, and the client reducers they go through |
| `GitProgress` | progress frames from git's output |
| `Controller` | the pointer to the current assistant session |
| `Sequences`, `Options` | what they share |

Code that changes state is modelled as methods, mostly of a class with the source's
fields. Each is proved against a function of the old state, or against what it promises
outright; the lemmas are about those functions and about every run made of them. What the
source leaves to a timer, a socket, a promise, the file system or `Intl` is a parameter or
an event that may come at any point.

Conditions the proofs rest on:

- A zone's offsets are whole seconds, shorter than a day, change on whole seconds and at
  most once in 48 hours (`Admissible`). The forward search needs nothing more. The backward
  search is exact if and only if the clock was never ahead of the pruned hours
  (`ClockNeverAhead`), which fall-backs of at most two hours in the last two days guarantee;
  otherwise `PrevMissesOtherwise` gives an expression it gets wrong. The same condition
  decides the planner (`AlwaysNewExactly`): without it some daily job has an occurrence that
  is accounted for again and again (`RefiresWhenAhead`; `OversizedFallBackRefires` is an
  instance in a zone that crosses the date line).
- While a drain awaits the current session, the job it waits with is not removed and its
  line in the file stays valid (`KeepsAwaited`). One queue entry a job and sends kept apart
  hold without it; that no occurrence fires twice holds exactly with it (`FiresOnceExactly`).
- At most one load of a session and one create are unanswered on a socket at a time.
- The agent delivers started prompts, then steers, then follow-ups, each first in first
  out; sends of one mode become queued in the order they were made. What it decides about a
  send depends on its own side alone, except that a send it deferred is decided before the
  next settle, as `server/src/reply-routing.ts:30-33` has it; `LateStartUnrecorded` says what
  would happen otherwise.
- On each line of the file, a head that probes as a tool result is that of a line that
  parses as one, and the like for the other heads (`Faithful`). A last line still being
  written need not be of this kind as long as it does not parse (`Grown`); `TornLineCount`
  says when such a line is counted.
- Call ids in a history window are distinct and a result names its call's tool
  (`WellNamed`). `MapHistory` is safe without that, but then promises nothing about pairing:
  the code takes an id match out of the queue of the result's tool, not the call's, so a
  result that names another tool leaves its call queued for a second one
  (`StaysQueuedIfMisnamed`).
- Session ids hold no NUL; the coalescer's keys are ambiguous otherwise.
- `Number` reads back what a template string prints of the numbers up to a message's chunk
  count.

Where the code does less than its comments say:

- `client/src/client.ts:397-401` and `1800-1817` want the latest choice to win. Two runs
  show where it does not. `LateErrorLosesCreate`: the error of an abandoned load ends the
  wait for a create made after it; `CreateAcceptedExactly` says when a create is accepted.
  `LateHistoryPaints`: a create over a session whose history is still arriving does not
  abandon that history, and once the new session is left, it is painted; `GuardExact` says
  which steps let a history through, and `ExposedReachesScreen` that each of them can end in
  a wrong history on the screen.
- `server/src/frame-chunks.ts:35-39` says a surrogate pair is never split. With a budget of
  two or more it never is; with a budget of one unit it is, exactly when a low half follows
  an even run of high halves (`PairsWholeExactly`). Text without an unpaired half has none.
- `server/src/assistant-controller.ts:156-162` says an own creation never moves the pointer
  back. It does not exactly as long as at most a hundred callbacks are to come
  (`OwnCallbacksExactly`); every creation past that makes one that does (`OverflowMovesBack`).
- `server/src/assistant-scheduler.ts:439-457` picks the head of the queue, awaits the current
  session, and then takes whatever is the head by that time. A tick or a removal meanwhile can
  make that another job's entry, which is lost, while the job picked fires although it was
  dropped, and may fire again for the same occurrence. `FiresOnceExactly` says after which
  steps that can happen, and `DroppedHeadFiresTwice` how.

## Model

| member | source | states |
|---|---|---|
| `TimeZones.EarliestCandidate` | server/src/assistant-cron.ts:232-237 | the earliest of the instants whose offset is the one they were computed with, or none when no candidate shows the local time |
| `TimeZones.Bisect` | server/src/assistant-cron.ts:244-251 | between two instants with different offsets the search ends, on the second at which the offset changes |
| `TimeZones.EndOfGap` | server/src/assistant-cron.ts:238-251 | a local time that no candidate shows maps to the first instant at or past it, the end of the gap |
| `TimeZones.ZonedToUtc` | server/src/assistant-cron.ts:228-252 | for every zone and local time: the first instant whose wall clock is at or past the local time |
| `TimeZones.FirstReachingMonotone` | server/src/assistant-cron.ts:25-31 | the map from local times to instants is monotone over all local times, shown or not |
| `TimeZones.ShownMapsToEarliest` | server/src/assistant-cron.ts:223-227 | a local time shown once or twice maps to the earliest instant showing it |
| `TimeZones.GapMapsToTransition` | server/src/assistant-cron.ts:223-227 | a local time in a gap maps to the transition: the clock jumps over it at exactly that instant |
| `TimeZones.OffsetInWindow` | server/src/assistant-cron.ts:230-231 | around a local time only the offsets a day before and a day after occur |
| `TimeZones.EarlierCandidate` | server/src/assistant-cron.ts:232-237 | an earlier instant not behind the local time means the first candidate is valid, so the minimum of the candidates is right |
| `TimeZones.GapShape` | server/src/assistant-cron.ts:238-243 | with no valid candidate the clock jumps forward, from the smaller to the larger of the two offsets |
| `Cron.SetBits` | server/src/assistant-cron.ts:273-283 | exactly the set positions, in increasing order |
| `Cron.EitherDayField` | server/src/assistant-cron.ts:265-270 | an expression whose day fields are both restricted fires exactly when the one with any weekday or the one with any day of the month does |
| `Cron.BothDayFields` | server/src/assistant-cron.ts:265-270 | otherwise a slot fires exactly on a day that has its month, day of month and weekday, at its hours and minutes |
| `Cron.WeekdayOnly` | server/src/assistant-cron.ts:265-270 | so an expression with one weekday and any day of the month fires on that weekday only, and on each |
| `Cron.FiresInOrder` | server/src/assistant-cron.ts:291-292 | of two scheduled local minutes the later never fires earlier |
| `Cron.FirstOnDay` | server/src/assistant-cron.ts:295-306 | the first slot of a day, from the pruned hour on, that fires after the argument, or none does |
| `Cron.NextCronRun` | server/src/assistant-cron.ts:286-310 | the day-by-day, hour-pruned search returns the least occurrence strictly after its argument, of the unpruned definition; null means none within the horizon |
| `Cron.LastOnDay` | server/src/assistant-cron.ts:319-328 | the last slot of a day, up to the pruned hour, that fires at or before the argument, or none does |
| `Cron.PrevCronRun` | server/src/assistant-cron.ts:313-332 | the backward search returns the greatest slot visited at or before its argument, and the greatest occurrence when the clock was never ahead of the pruned hours |
| `Cron.NextSkipsOnlyFired` | server/src/assistant-cron.ts:296-300 | a slot the forward pruning skips fires at or before the argument, in every zone |
| `Cron.NextIsLeast` | server/src/assistant-cron.ts:285-310 | the least occurrence strictly after the argument, of the unpruned definition; null means none within the horizon |
| `Cron.PrevSkipsOnlyFuture` | server/src/assistant-cron.ts:320-322 | a slot the backward pruning skips fires after the argument, when the clock was never ahead by more than the pruning allows |
| `Cron.PrevIsGreatest` | server/src/assistant-cron.ts:312-332 | under the same condition: the greatest occurrence at or before the argument; null means none within the horizon |
| `Cron.PrevMissesOtherwise` | server/src/assistant-cron.ts:320-322 | without that condition some expression makes the backward search miss the greatest occurrence, so the condition is exact |
| `Cron.SmallFallBackSuffices` | server/src/assistant-cron.ts:296-298 | a zone none of whose fall-backs in the last two days is larger than two hours meets the condition |
| `Cron.NextAfterPrev` | server/src/assistant-cron.ts:285-332 | the next occurrence after the previous one of an instant is after that instant |
| `Planner.AtToInstant` | server/src/assistant-cron.ts:376-383 | an offset given is used as it is; otherwise the local time is read in the zone, milliseconds added |
| `Planner.BaseOf` | server/src/assistant-schedule.ts:307-313 | the base is the newest of the runs read and `since`, or now when there is neither |
| `Planner.PlanRecurring` | server/src/assistant-schedule.ts:307-321 | a recurring job in terms of the two searches: never, waiting, or the latest missed occurrence, fired or skipped |
| `Planner.PlanJob` | server/src/assistant-schedule.ts:298-322 | which of disabled, done, never, waiting, due and missed a job is, for each kind of job; what is due or missed is later than every run logged |
| `Planner.AccountedIsNew` | server/src/assistant-schedule.ts:289-292 | a due or missed occurrence is later than every run logged and than `since`, not in the future, an occurrence, and the latest one up to now within the horizon |
| `Planner.AccountedOnce` | server/src/assistant-schedule.ts:289-292 | once it is logged, planning again at the same instant answers waiting or never: one catch-up an outage |
| `Planner.NeverTwice` | server/src/assistant-schedule.ts:289-292 | over any sequence of looks, across zone changes and edits of the job (expression, kind, disabled and enabled), the occurrences accounted for strictly increase |
| `Planner.OneShotOnce` | server/src/assistant-schedule.ts:293-305 | an enabled one-shot is done exactly when it has a run; accounted for, it is past |
| `Planner.OneShotAtMostOnce` | server/src/assistant-schedule.ts:293-305 | over any sequence of looks a one-shot, edited or not, is accounted for at most once |
| `Planner.RecurringExactly` | server/src/assistant-schedule.ts:307-321 | within the search horizon: a recurring job accounts for something exactly when an occurrence has passed since its base, for the latest, due within the grace and missed outside it; else it waits for the least to come, or there is none |
| `Planner.OneShotExactly` | server/src/assistant-schedule.ts:300-306 | a one-shot with no run waits while its instant is to come, is due within the grace, and missed from then on |
| `Planner.OffsetIsZone` | server/src/assistant-cron.ts:376-383 | an offset written out means the first instant showing the time in a zone with that offset |
| `Planner.RefiresWhenAhead` | server/src/assistant-schedule.ts:307-321 | whenever the clock was further ahead than the pruning allows, in any zone, some daily job has an occurrence that every plan accounts for again, however often it is logged |
| `Planner.AlwaysNewExactly` | server/src/assistant-schedule.ts:289-292 | no plan made at an instant goes back behind the run log, whatever the expression and the log, exactly when the clock was never that far ahead |
| `Planner.OversizedFallBackRefires` | server/src/assistant-schedule.ts:315-321 | an instance: in a zone that goes back a day the planner answers with an occurrence before a logged one |
| `Planner.DateLineChangeAdmissible` | server/src/assistant-cron.ts:296-298 | that zone is an admissible one, and it fails the condition of the backward search |
| `Scheduler.AssistantScheduler.TickNow` | server/src/assistant-scheduler.ts:313-355 | one pass over the schedule: jobs in flight are skipped, the rest planned and fired, skipped or left; entries of jobs no longer in the file go; then the drain |
| `Scheduler.AssistantScheduler.Fire` | server/src/assistant-scheduler.ts:389-401 | a shell prompt is refused, an inline job queued, an isolated one started |
| `Scheduler.AssistantScheduler.constructor` | server/src/assistant-scheduler.ts:173-207 | a new scheduler has the run log, and nothing queued, started, marked or awaited |
| `Scheduler.AssistantScheduler.DrainInline` | server/src/assistant-scheduler.ts:434-450 | nothing while another drain waits; otherwise removed and disabled jobs go, and the first other job is left while its session is busy or awaits the current session |
| `Scheduler.AssistantScheduler.EnsuredCurrent` | server/src/assistant-scheduler.ts:449-485 | after the wait: the job awaited is recorded as failed and the drain goes on, or it is left, or sent with its session marked; the queue loses whatever is its head by then |
| `Scheduler.AssistantScheduler.IsIdle` | server/src/assistant-scheduler.ts:487-503 | settled with nothing queued, and which marks are forgotten on the way |
| `Scheduler.AssistantScheduler.RemoveJob` | server/src/assistant-scheduler.ts:264-269 | the job's queue entries go, and no others |
| `Scheduler.AssistantScheduler.HandleAgentStart` | server/src/assistant-scheduler.ts:507-510 | the session is marked as really running |
| `Scheduler.AssistantScheduler.HandleAgentSettled` | server/src/assistant-scheduler.ts:511-524 | the session's mark goes and the queue is drained |
| `Scheduler.AssistantScheduler.HandleAgentEnd` | server/src/assistant-scheduler.ts:525-532 | the same, only for a CLI session that does not report settling |
| `Scheduler.AssistantScheduler.InlineSendDone` | server/src/assistant-scheduler.ts:463-470 | the same, only for a server session that is not streaming |
| `Scheduler.AssistantScheduler.InlineSendFailed` | server/src/assistant-scheduler.ts:471-476 | the failure is recorded, the mark goes, the queue is drained |
| `Scheduler.AssistantScheduler.IsolatedSessionCreated` | server/src/assistant-scheduler.ts:403-421 | the job is no longer being started, and its run is recorded as fired or failed |
| `Scheduler.AssistantScheduler.IsolatedSendFailed` | server/src/assistant-scheduler.ts:423-428 | the failure is recorded |
| `SchedulerRuns.JobWaitsOnce` | server/src/assistant-scheduler.ts:357-359 | over every run, whatever happens while a drain waits: a job has at most one queue entry, and none while it is being started |
| `SchedulerRuns.NotPlannedInFlight` | server/src/assistant-scheduler.ts:323-331 | over every run that keeps awaited heads: a queued or started job is not planned again until it was sent, created or dropped, or the server restarts |
| `SchedulerRuns.SendsApart` | server/src/assistant-scheduler.ts:433-533 | over every run, whatever happens while a drain waits: between two inline sends to one session comes a settle, the `agent_end` fallback, a completed or failed send, an eviction, a start timeout, or a restart |
| `SchedulerRuns.TimeoutIsOverdue` | server/src/assistant-scheduler.ts:496-501 | over every run: a start times out only more than a minute after the send, with no `agent_start` of that session and no restart since |
| `SchedulerRuns.FiresOnce` | server/src/assistant-scheduler.ts:323-350 | over every run that keeps awaited heads, restarts included: a job fires only for an occurrence later than every one recorded for it before |
| `SchedulerRuns.FiresOnceExactly` | server/src/assistant-scheduler.ts:433-485 | after every such run: a further step leaves it impossible that an occurrence fires twice, in every plausible continuation, exactly when it does not take out the job a drain waits with |
| `SchedulerRuns.SafeExactly` | server/src/assistant-scheduler.ts:439-457 | the same of every state of the invariant |
| `SchedulerRuns.DroppedHeadFiresTwice` | server/src/assistant-scheduler.ts:352-353 | every step that does take it out has a plausible continuation in which that job fires twice for the occurrence it waited with, and the queue entry of another job is lost |
| `SchedulerRuns.DueAtIsPlan` | server/src/assistant-schedule.ts:300-306 | the planner of that continuation answers as `planJob` does for a one-shot job within its grace |
| `SchedulerRuns.PlannerPlansNew` | server/src/assistant-schedule.ts:298-322 | `planJob`, on the job's recorded runs, answers as `FiresOnce` relies on |
| `SchedulerRuns.RunKeeps` | server/src/assistant-scheduler.ts:313-533 | the invariant behind these, over every run |
| `SchedulerSteps.SendsExactly` | server/src/assistant-scheduler.ts:449-503 | over every run: after the wait for a session the awaited job is sent to it exactly when the session takes one: not resident, or neither streaming nor with anything queued, and no earlier send to it unsettled unless its start is overdue |
| `SchedulerSteps.SendsWhatWaited` | server/src/assistant-scheduler.ts:449-485 | over every run: what is sent then is the entry the drain waited with, and its run is recorded as fired |
| `SchedulerSteps.DrainWaitsExactly` | server/src/assistant-scheduler.ts:434-450 | a drain comes to wait with an entry exactly when it is the oldest of an enabled job and the current session, if any, takes one |
| `SchedulerSteps.DueIsAccounted` | server/src/assistant-scheduler.ts:313-355 | a job of the file not in flight at its turn whose plan is due or missed is accounted for by the tick: fired, skipped as missed, or refused for its shell prompt |
| `SchedulerSteps.OnlyDueIsAccounted` | server/src/assistant-scheduler.ts:313-401 | and a tick accounts for nothing else: each note is of a job of the file planned as it says, fired inline or in its own session as the job says, and a shell prompt is never fired |
| `SchedulerSteps.EndFreesExactly` | server/src/assistant-scheduler.ts:525-532 | an `agent_end` frees its session exactly when that is a CLI session that does not report settling |
| `SchedulerSteps.DoneFreesExactly` | server/src/assistant-scheduler.ts:463-470 | a completed send frees its session exactly when that is not a CLI session and not streaming |
| `SchedulerSteps.SettleFrees` | server/src/assistant-scheduler.ts:511-524 | a settle and a failed send always free it |
| `SchedulerSteps.StartIsRecorded` | server/src/assistant-scheduler.ts:403-428 | a job started in a session of its own is recorded as fired or failed for its occurrence, and is then no longer being started; a send that fails later is recorded too |
| `Upload.PendingUpload.BeginChunked` | client/src/client.ts:3686-3709 | nothing changes unless the socket takes the begin; then nothing is in flight and the read under way is void |
| `Upload.PendingUpload.LoseSocket` | client/src/client.ts:3883-3900 | the upload forgets where it was sent and what was in flight |
| `Upload.PendingUpload.InFlightBytes` | client/src/client.ts:3778 | the bytes of the chunks in flight |
| `Upload.PendingUpload.Pump` | client/src/client.ts:3762-3783 | when the finish is sent, when a read is started, of what length, and when neither |
| `Upload.PendingUpload.HandleOffset` | client/src/client.ts:3711-3754 | an offset answers the begin or the oldest chunk; a wrong one starts a realignment that ends with the last answer |
| `Upload.PendingUpload.HandleRead` | client/src/client.ts:3787-3806 | the bytes read are dropped when another socket or a realignment came between, fail the upload when short, or are sent |
| `Upload.PendingUpload.Complete` | client/src/client.ts:3846-3852 | a completed upload counts as wholly acknowledged |
| `Upload.PendingUpload.Fail` | client/src/client.ts:3854-3861 | a failed upload is over |
| `UploadProtocol.ServeKeeps` | server/src/protocol.ts:314-317 | the server appends a chunk only at its true offset, and what it staged stays a prefix of the source |
| `UploadProtocol.StepKeepsInv` | client/src/client.ts:3683-3900 | every step of client, server and sockets keeps the coupling of awaited frames and answers |
| `UploadProtocol.StagedIsPrefix` | client/src/client.ts:3683-3900 | over every run: the staged bytes are a prefix of the source; a finish is under way, or the upload complete, only when all of it is staged |
| `UploadProtocol.NeverRefused` | client/src/client.ts:3769-3774 | over every run the server has no reason to refuse the finish |
| `UploadProtocol.WindowHeld` | client/src/client.ts:81-84 | on a live socket the chunks in flight are contiguous up to `nextOffset` unless realigning, at most 1 MiB, and at most 64 KiB before the first timed answer |
| `UploadProtocol.NeverStuck` | client/src/client.ts:3762-3813 | on a live socket something is always under way; with nothing in flight or awaited, `nextOffset` is the offset acknowledged and a read or the finish is on its way |
| `UploadPacing.WindowIsTwoSeconds` | client/src/client.ts:3756-3760 | the window is two seconds' worth at the measured rate in whole bytes, at least 64 KiB and at most 1 MiB |
| `UploadPacing.RateFollows` | client/src/client.ts:3731-3733 | a measurement moves the rate three tenths of the way towards it |
| `UploadPacing.RateWithinMeasured` | client/src/client.ts:3731-3733 | over every run the rate stays within the least and the greatest measurement |
| `UploadPacing.MeasuresExactly` | client/src/client.ts:3726-3746 | a step changes the rate exactly when an answer confirms the oldest chunk in flight |
| `UploadPacing.WindowIsUsed` | client/src/client.ts:3762-3783 | over every run: chunks have between 1 byte and 256 KiB, and with no read under way only the end of the source or the window keeps the next chunk back |
| `UploadPacing.ReadIsNextChunk` | client/src/client.ts:3774-3783 | a read that a step starts is of the next chunk, as long as source, chunk limit and window allow, for the socket and alignment of that moment |
| `UploadPacing.FinishIsSent` | client/src/client.ts:3767-3772 | an upload is finishing only from a step on that sends the finish over an open socket |
| `UploadEnds.UndisturbedCompletes` | client/src/client.ts:3683-3852 | after any run that leaves the upload on an open socket: with nothing lost, closed or failed and nothing read from a lost socket any more, every run has at most `Budget` steps, and one that cannot go on has completed the upload with the whole source staged |
| `UploadEnds.QuietStep` | client/src/client.ts:3711-3806 | every such step lowers the budget, or completes the upload |
| `UploadEnds.CanComplete` | client/src/client.ts:3683-3852 | from every such state there is such a run to the end |
| `SessionSelection.SessionClient.AbandonPendingLoad` | client/src/client.ts:3126-3150 | which load, or accepted session whose history is still due, is remembered as abandoned |
| `SessionSelection.SessionClient.SendOrQueue` | client/src/client.ts:3152-3157 | a request goes out, or waits for the next socket |
| `SessionSelection.SessionClient.JoinSession` | client/src/client.ts:3105-3121 | the session joined is the one load waited for |
| `SessionSelection.SessionClient.ShowLoading` | client/src/client.ts:3188-3211 | the conversation is cleared and the new load is the one waited for |
| `SessionSelection.SessionClient.SwitchSession` | client/src/client.ts:3167-3214 | the load waited for is abandoned, the conversation cleared and the new load asked for; tapping the session shown does nothing |
| `SessionSelection.SessionClient.CreateSession` | client/src/client.ts:3227-3270 | a create supersedes the load waited for and any rejoin |
| `SessionSelection.SessionClient.ClearSession` | client/src/client.ts:3295-3320 | nothing is shown and nothing waited for |
| `SessionSelection.SessionClient.LeaveSession` | client/src/client.ts:3272-3321 | nothing is waited for or queued any more |
| `SessionSelection.SessionClient.OnOpen` | client/src/client.ts:590-709 | a request queued meanwhile goes out instead of the rejoin, unless it is the rejoin |
| `SessionSelection.SessionClient.OnClose` | client/src/client.ts:740-761 | a drop, or a suspend, ends the waits and keeps what to rejoin |
| `SessionSelection.SessionClient.SessionCreated` | client/src/client.ts:1800-1844 | which `session_created` is accepted, and that the others are abandoned |
| `SessionSelection.SessionClient.MessageHistory` | client/src/client.ts:2244-2261 | which history is painted |
| `SessionRuns.AcceptedIsLatestChoice` | client/src/client.ts:1818-1844 | after any interleaving: a load's reply is accepted iff its session is the latest choice, a create's iff a create is and it is still waited for; a load's is never taken for a create's |
| `SessionRuns.ShownIsChosen` | client/src/client.ts:3105-3321 | what is shown with no load waited for is the latest choice; a load waited for is the latest choice; after leaving nothing is shown |
| `SessionRuns.GuardExact` | client/src/client.ts:3126-3150 | a step makes it possible that a history of another session than the one shown is painted exactly when it clears the screen of a session while a history nothing has abandoned is on the wire |
| `SessionRuns.PaintedIsShown` | client/src/client.ts:2244-2261 | in a run without such a step only the shown session's history is painted, also when another session is accepted while the old history is still arriving |
| `SessionRuns.ExposedReachesScreen` | client/src/client.ts:2244-2261 | after any run, such a step can be followed at once by a history painted on an empty screen |
| `SessionRuns.LateHistoryPaints` | client/src/client.ts:3250-3251 | a run with one: a create over a session still loading its history, then left, paints that history on an empty screen |
| `SessionRuns.WaitEndsExactly` | client/src/client.ts:2028-2040 | while a create is unanswered and the latest choice, a step ends the wait for it exactly when it is an error of a load or the create's timeout |
| `SessionRuns.CreateAcceptedExactly` | client/src/client.ts:1818-1844 | so over every such run its reply is accepted exactly when no load has failed and it has not timed out since it was asked for |
| `SessionRuns.LateErrorLosesCreate` | client/src/client.ts:2028-2040 | an instance: an abandoned load's error ends the wait for the create made after it, whose own reply is then dropped |
| `SessionRuns.ChosenIsPainted` | client/src/client.ts:2244-2261 | over every run: the history of the session chosen and shown, with no load waited for, is painted when it comes and ends the loading |
| `SessionRuns.ReplyThenHistory` | client/src/client.ts:1800-1844 | after any run, a reply that is accepted and the history behind it put its session on screen |
| `SessionRuns.LoadingIsAnswered` | client/src/client.ts:2244-2261 | after any run that is loading on an open socket, what loads is the latest choice, and the replies on their way paint it and end the loading |
| `SessionRuns.OpenAsks` | client/src/client.ts:590-709 | after any run a new socket asks for what was asked for while there was none, else for the session shown, else for nothing; with which marks, and without touching what is shown |
| `SessionRuns.ChosenIsAsked` | client/src/client.ts:3105-3214 | a tap on the session on screen changes nothing; any other choice of a session is marked as loading at once and asked for, or queued |
| `SessionRuns.NewIsAsked` | client/src/client.ts:3227-3270 | so is a new session, over what is on screen |
| `SessionRuns.LeaveIdles` | client/src/client.ts:3272-3321 | after any run leaving leaves nothing shown, waited for, queued or in progress |
| `SessionRuns.TimedOutIsNotAsked` | client/src/client.ts:1125-1174 | after any run, a request that timed out before there was a socket is not sent by the next one |
| `SessionRuns.TimeoutKeepsOther` | client/src/client.ts:1125-1174 | a timeout keeps a queued request of the other kind, and ends only what it is the timeout of |
| `SessionRuns.ErrorEnds` | client/src/client.ts:2028-2070 | an error ends what is in progress and touches neither the selection nor the screen |
| `SessionRuns.CloseKeeps` | client/src/client.ts:740-761 | a lost socket keeps the selection, the screen and what is queued, and marks a session shown as to be brought up to date unless the page gave the socket up |
| `SessionRuns.RepliesKeepShown` | client/src/client.ts:1818-1844 | no reply makes a later history of the session on screen unwelcome |
| `SessionRuns.MarkEndsExactly` | client/src/client.ts:2244-2261 | while a chosen load is unanswered its mark ends exactly at an error, the load timeout, or a history painted meanwhile for the session still on screen |
| `SessionRuns.ScreenTells` | client/src/client.ts:2244-2261 | over every run: what counts as up to date is on screen; the chosen load is marked unless a step ended the mark; nothing is on screen without a session unless a history was exposed |
| `SessionRuns.StepKeepsInv` | client/src/client.ts:590-709 | every tap, reconnect and reply keeps every unanswered load waited for or abandoned |
| `ReplyRouting.ReplyRouting.Record` | server/src/reply-routing.ts:71-76 | the send joins its queue as pending |
| `ReplyRouting.ReplyRouting.Remove` | server/src/reply-routing.ts:193-203 | the entry goes from whichever queue has it |
| `ReplyRouting.ReplyRouting.Start` | server/src/reply-routing.ts:78-86 | a started send goes behind the started ones and before all others |
| `ReplyRouting.ReplyRouting.ChangeState` | server/src/reply-routing.ts:188-191 | the entry's state, wherever it is |
| `ReplyRouting.ReplyRouting.Defer` | server/src/reply-routing.ts:93-97 | only a pending send becomes deferred |
| `ReplyRouting.ReplyRouting.Drop` | server/src/reply-routing.ts:104-107 | the send is forgotten |
| `ReplyRouting.ReplyRouting.TakeFirst` | server/src/reply-routing.ts:205-208 | the first entry that qualifies goes from its queue |
| `ReplyRouting.ReplyRouting.TakeForUserMessage` | server/src/reply-routing.ts:118-127 | the entry taken and the new destination: entries the agent has win, prompts and steers before follow-ups |
| `ReplyRouting.TakesWhich` | server/src/reply-routing.ts:109-127 | a user message takes the oldest entry the agent has, prompts and steers before follow-ups, and without one the oldest of all; the others stay, its origin is the destination, and there is none exactly when both queues are empty |
| `ReplyRouting.ReplyRouting.TrimToPiQueues` | server/src/reply-routing.ts:141-144 | both queues trimmed to the agent's lengths |
| `ReplyRouting.ReplyRouting.Clear` | server/src/reply-routing.ts:151-160 | what the agent had queued is dropped, and its origins reported |
| `RoutingRuns.TrimKeepsNewest` | server/src/reply-routing.ts:211-215 | of the entries in the agent's queue a trim keeps exactly the newest |
| `RoutingRuns.TrimKeepsPending` | server/src/reply-routing.ts:134-140 | a trim keeps every pending send in order, and nothing started or deferred |
| `RoutingRuns.DeliveredSeen` | server/src/reply-routing.ts:109-117 | a user message takes the head of what the agent holds |
| `RoutingRuns.SettleSeen` | server/src/reply-routing.ts:141-144 | a settle's trim makes the queues the agent's again |
| `RoutingRuns.StepKeepsDrift` | server/src/reply-routing.ts:72-160 | every step keeps the agent's queues what is left of the routing ones, and equal to them unless the agent lost something |
| `AgentRuns.AllowedFits` | server/src/reply-routing.ts:20-35 | whatever the agent decides about a send, its entry is where the operation looks for it |
| `AgentRuns.StepKeepsTracked` | server/src/reply-routing.ts:72-160 | every step keeps every undecided send in the queue of its mode, in the state the agent has it in |
| `AgentRuns.UndecidedHasEntry` | server/src/reply-routing.ts:20-35 | over every run: a send the agent may still start, queue or defer has its entry |
| `AgentRuns.DeliveredToOwnOrigin` | server/src/reply-routing.ts:109-117 | over every run in which the agent loses nothing: the routing queues mirror the agent's, and the next user message goes to its own origin |
| `AgentRuns.SettleMirrors` | server/src/reply-routing.ts:134-144 | whatever was lost, a settle removes only stale entries and keeps every pending send |
| `AgentRuns.AttributedAfterSettle` | server/src/reply-routing.ts:109-117 | from a settle on attribution is right again while nothing more is lost |
| `AgentRuns.LateStartUnrecorded` | server/src/reply-routing.ts:30-33 | after a settle the sends still deferred have no entry: were the agent to start one, the queues would no longer mirror each other |
| `AgentRuns.ClearReports` | server/src/reply-routing.ts:146-160 | a clear reports the origins of exactly what the agent had queued, oldest first |
| `JsonlReader.LineAssembler.Classify` | server/src/session-transcript.ts:202-210 | a line is classified once, from its head |
| `JsonlReader.LineAssembler.ResetLine` | server/src/session-transcript.ts:212-217 | nothing is left of the line before |
| `JsonlReader.LineAssembler.AddSegment` | server/src/session-transcript.ts:220-230 | a segment joins the line, which is classified as soon as its head is full |
| `JsonlReader.LineAssembler.FinishLine` | server/src/session-transcript.ts:233-240 | the assembled line is handled exactly as a line read whole |
| `JsonlReader.FastLine` | server/src/session-transcript.ts:252-262 | a line within one chunk is handled exactly as a line read whole |
| `JsonlReader.EndLine` | server/src/session-transcript.ts:252-266 | so is a line that ends in the chunk |
| `JsonlReader.EndNext` | server/src/session-transcript.ts:249-268 | one turn of the inner loop keeps the outcome of the whole file |
| `JsonlReader.EndLines` | server/src/session-transcript.ts:249-269 | so does the inner loop, up to the last newline of the chunk or a stop |
| `JsonlReader.ReadChunk` | server/src/session-transcript.ts:243-271 | so does a read |
| `JsonlReader.ForEachJsonlLine` | server/src/session-transcript.ts:175-279 | for every file, way of cutting it into reads, and handler: the handler ends in the state that splitting the whole file on newlines gives it |
| `JsonlReader.NaiveAtNewline` | server/src/session-transcript.ts:175-279 | splitting at the first newline, the head probed, then the rest |
| `HistoryEntries.EntryReadsBack` | server/src/session-transcript.ts:603-703 | who said what, in which order, with which ids, images and failures can be read back from the history messages of an entry |
| `TranscriptWindow.ScanTranscript` | server/src/session-transcript.ts:802-872 | one pass is the reference reader with the pass's own handler |
| `TranscriptWindow.ScanIsWindow` | server/src/session-transcript.ts:802-872 | one pass collects exactly the window of the whole history, and unbounded also its size, header and last model |
| `TranscriptWindow.SkippedAdds` | server/src/session-transcript.ts:814-829 | a line skipped from its head adds no message, or is one tool result behind the window, counted |
| `TranscriptWindow.LineAdds` | server/src/session-transcript.ts:830-868 | a line read adds its messages, those inside the window, and its model |
| `TranscriptWindow.AppendKeepsHistory` | server/src/session-transcript.ts:893-897 | appending, also to a last line still being written, leaves the messages there were where they were |
| `TranscriptWindow.TornLineCount` | server/src/session-transcript.ts:899-932 | with a last line still being written that does not parse, the counting pass has the size of the history exactly when the line's head is not that of a tool result |
| `TranscriptWindow.SecondPass` | server/src/session-transcript.ts:923-924 | once the size is known, the second pass reads exactly the slice, also of a file grown meanwhile |
| `TranscriptWindow.ReadTranscriptWindow` | server/src/session-transcript.ts:899-932 | the window, total and offset are those of loading the whole history and slicing it |
| `TranscriptPages.WindowStretches` | server/src/session-transcript.ts:877-880 | the window is a stretch of the history of at most the limit that ends where asked, and is shorter only at the beginning of the history |
| `TranscriptPages.PagesJoin` | server/src/session-transcript.ts:877-897 | a page and the one before it, also of a file grown meanwhile, are one larger window |
| `TranscriptPages.PagesAreAll` | server/src/session-transcript.ts:877-897 | paging back to the beginning reads every message once, in order, whatever is appended meanwhile |
| `TranscriptPages.UnskippedLine` | server/src/session-transcript.ts:202-210 | a handler without a `skip` is handed every line that is not empty |
| `HistoryPairing.StaysQueuedIfMisnamed` | client/src/client.ts:2389-2396 | a result matched by id leaves its call in the name queues exactly when it names another tool |
| `HistoryPairing.TakeCall` | client/src/client.ts:2429-2448 | the call a result fills, by id or by name, and the two indexes without it |
| `HistoryPairing.PlaceResult` | client/src/client.ts:2424-2496 | a result fills its call in place, or is painted on its own |
| `HistoryPairing.PairAll` | client/src/client.ts:2392-2512 | the loop with its two indexes pairs as one ordered list of open calls does |
| `HistoryPairing.OpenEntries` | client/src/client.ts:2523-2524 | every entry still in a queue |
| `HistoryPairing.LatestOf` | client/src/client.ts:2525-2529 | the latest of them |
| `HistoryPairing.MarkOpen` | client/src/client.ts:2530-2536 | the entries left open are interrupted, but one given still runs |
| `HistoryPairing.FinishAll` | client/src/client.ts:2514-2547 | the calls left open, and a last message of a live tail, as the reference leaves them |
| `HistoryPairing.MapHistory` | client/src/client.ts:2364-2550 | for every window whose call ids are distinct and whose results name their call's tool: the reference pairing, painted |
| `HistoryPairing.PairsUnique` | client/src/client.ts:2392-2512 | the reference pairing of a window is unique |
| `HistoryPairing.EveryMessageOnce` | client/src/client.ts:2392-2512 | one entry for each message that is no result and each result that filled no call; every call is filled or open |
| `HistoryPairing.PairsInjective` | client/src/client.ts:2388-2390 | no two results fill one entry, no result fills two |
| `HistoryPairing.CallStays` | client/src/client.ts:2370-2379 | a call is where it was issued: open as issued, or filled by one later result with what it was issued with |
| `HistoryPairing.ResultFills` | client/src/client.ts:2380-2390 | a result fills its own call if that is open, and otherwise the open call of its tool issued first |
| `HistoryPairing.FillingStays` | client/src/client.ts:2392-2512 | no later message undoes a filling |
| `HistoryPairing.CallFate` | client/src/client.ts:2514-2536 | what each call shows in the end: its result, or still running if it is the latest open one of a live tail, or interrupted |
| `HistoryPairing.ResultFillsOwn` | client/src/client.ts:2424-2437 | a result with the id of an open call fills that call |
| `HistoryPairing.ResultFillsOldest` | client/src/client.ts:2438-2445 | one without an id fills the open call of its tool that was issued first |
| `HistoryPairing.ResultIsShown` | client/src/client.ts:2446-2496 | every result is shown: its text, images, whether it failed or was stopped, and when it ended |
| `HistoryPairing.CallIsShown` | client/src/client.ts:2393-2420 | every call is shown at its own place with its tool, arguments and start |
| `HistoryPairing.MessageIsShown` | client/src/client.ts:2497-2511 | every other message is shown at its own place, the last one as streaming in a live tail |
| `FrameChunks.SplitFrame` | server/src/frame-chunks.ts:40-56 | the loop ends, with the pieces framed in order, or the text alone when it fits |
| `FrameChunks.OnlyFittingWhole` | server/src/frame-chunks.ts:40-56 | the frames are the text itself exactly when it is within the budget |
| `FrameChunks.SplitSound` | server/src/frame-chunks.ts:5-56 | otherwise each frame parses as the chunk of its number; its data is non-empty, within the budget, short of it by one unit at most and only to keep a pair whole, and starts inside no pair; together they are the text |
| `FrameChunks.HalvesExactly` | server/src/frame-chunks.ts:46-51 | the units taken for halves are exactly those that start or end the UTF-16 of a character |
| `FrameChunks.CharactersWhole` | server/src/frame-chunks.ts:35-39 | the pieces of a text of whole characters start between characters, with any budget |
| `FrameChunks.PiecesSound` | server/src/frame-chunks.ts:35-54 | for every text and budget of at least two: the pieces concatenate to it, are non-empty and within the budget, and none starts inside a surrogate pair |
| `FrameChunks.PairsWholeExactly` | server/src/frame-chunks.ts:35-54 | for every text and budget: no piece starts inside a surrogate pair exactly when the budget is at least two or every low half directly after a high one ends an odd run of high halves |
| `FrameChunks.WellPairedWhole` | server/src/frame-chunks.ts:46-51 | so text without an unpaired half is split between its pairs with any budget |
| `FrameChunks.OneUnitCutsPair` | server/src/frame-chunks.ts:48-50 | an instance of the other side: with a budget of one a piece too long, and the next cut inside a pair |
| `FrameChunks.FrameReassembler.Push` | client/src/frame-chunks.ts:38-70 | passed through, rejected, collected or completed, and the progress left |
| `FrameChunks.FrameReassembler.Reset` | client/src/frame-chunks.ts:72-76 | no message is in progress |
| `FrameChunks.ParsesBack` | client/src/frame-chunks.ts:41-48 | the header printed is parsed back, whatever the data |
| `FrameChunks.ParsesExactly` | client/src/frame-chunks.ts:41-48 | a chunk is valid exactly with an id and integers with 0 <= index < count |
| `FrameChunks.InvalidLeaves` | client/src/frame-chunks.ts:41-48 | one without a header line is invalid, and an invalid one leaves the progress alone |
| `FrameChunks.OutOfStepDrops` | client/src/frame-chunks.ts:49-62 | a later chunk that is not the next one of the message in progress drops that message |
| `FrameChunks.PartialCounts` | client/src/frame-chunks.ts:63-66 | before the last chunk, what is reported is how many of how many have arrived |
| `FrameChunks.EmitsMessage` | client/src/frame-chunks.ts:49-69 | from any state the chunks of a message hand on exactly that message |
| `FrameChunks.RoundTrip` | server/src/frame-chunks.ts:15-20 | from any state and with other frames in between: splitting texts and reassembling the frames gives exactly the texts in order, the other frames untouched |
| `FrameChunks.OnlyWholeFrames` | client/src/frame-chunks.ts:49-69 | whatever was pushed, a reassembled frame is the concatenation of chunks 0 to count - 1 of one id, the last chunks that arrived |
| `DeltaCoalescer.KeyTellsTarget` | server/src/delta-coalescer.ts:51-53 | two deltas have the same key exactly when they append to the same thing, given session ids without NUL |
| `DeltaCoalescer.Coalescer.Send` | server/src/delta-coalescer.ts:87-105 | merged, held or written, what was held going out first |
| `DeltaCoalescer.Coalescer.Flush` | server/src/delta-coalescer.ts:107-117 | what is held goes out and the timer is off |
| `DeltaCoalescer.Coalescer.Dispose` | server/src/delta-coalescer.ts:119-125 | what is held is forgotten and the timer is off |
| `DeltaCoalescer.Coalescer.TimerFired` | server/src/delta-coalescer.ts:127-137 | what is held goes out, or waits on while the socket is backed up and the limit allows |
| `DeltaCoalescer.RunKeeps` | server/src/delta-coalescer.ts:12-25 | over every run: what was written and is held is what was sent up to merging adjacent deltas of one key; the timer is armed exactly while something is held, which is below the limit |
| `DeltaCoalescer.SendWrites` | server/src/delta-coalescer.ts:87-105 | over every run: what a send merges, holds and writes |
| `DeltaCoalescer.FiringWritesAll` | server/src/delta-coalescer.ts:127-137 | over every run that ends in a timer firing: all that was sent is written, unless the socket is backed up and the send that began the held delta is less than the limit ago; then nothing is written |
| `DeltaCoalescer.FiringHoldsOn` | server/src/delta-coalescer.ts:21-24 | and in that case it does hold on |
| `DeltaCoalescer.StreamGrows` | client/src/client.ts:1343-1395 | a delta is joined to the last streaming message of its kind and changes no other |
| `DeltaCoalescer.StreamStarts` | client/src/client.ts:1343-1395 | without one it starts a message behind all others, unless it is a tool's |
| `DeltaCoalescer.ReplayShows` | client/src/client.ts:1343-1395 | of any deltas in any order of kinds, a streaming message shows exactly those of its own kind, in order |
| `DeltaCoalescer.ReduceTwice` | client/src/client.ts:1343-1395 | for every message list, two deltas to one thing do what the merged one does |
| `DeltaCoalescer.GrownTwice` | client/src/client.ts:1660-1689 | so for the streaming message itself, including the line break a tool's first output adds |
| `DeltaCoalescer.ReplayNormal` | client/src/client.ts:1343-1395 | merging adjacent deltas never changes what the client shows |
| `DeltaCoalescer.SameStore` | server/src/delta-coalescer.ts:12-19 | over every run and for every handling of other frames: the frames written and held give the client the same store as the messages sent |
| `GitProgress.GitProgressParser.ParseLine` | server/src/restore-jobs.ts:387-404 | what one complete line does to the scope, and the frame it yields |
| `GitProgress.GitProgressParser.ReadLines` | server/src/restore-jobs.ts:379-384 | the lines of a chunk, in order |
| `GitProgress.GitProgressParser.Push` | server/src/restore-jobs.ts:370-385 | the complete lines are read and the rest is buffered |
| `GitProgress.SplitIsFed` | server/src/restore-jobs.ts:377-378 | splitting on CR LF, CR and LF reads as ending a line at every CR and every LF |
| `GitProgress.ChunksDoNotMatter` | server/src/restore-jobs.ts:370-385 | for every way of cutting the output, also between CR and LF: the frames, scope and buffer of one push of it all |
| `GitProgress.PartialNeverReported` | server/src/restore-jobs.ts:370-378 | a trailing partial line adds no frame and waits in the buffer |
| `GitProgress.BufferUnbroken` | server/src/restore-jobs.ts:377-378 | no separator is ever left in the buffer |
| `GitProgress.ReaderSkipsBlank` | server/src/restore-jobs.ts:387-389 | a blank line changes nothing |
| `GitProgress.FramesSound` | server/src/restore-jobs.ts:397-402 | a percentage is at most 100, and missing exactly when the frame is indeterminate |
| `GitProgress.ProgressLine` | server/src/restore-jobs.ts:387-402 | a line of a phase, also a remote's, with a percentage behind anything that has none is a frame of that phase with that percentage, at most 100, in the present scope |
| `GitProgress.UncountedLine` | server/src/restore-jobs.ts:387-402 | one without a percentage is an indeterminate frame |
| `GitProgress.CloningLine` | server/src/restore-jobs.ts:391-395 | a line naming a clone's path moves the scope there, and its own frame is in the new scope |
| `GitProgress.OtherLine` | server/src/restore-jobs.ts:397-403 | any other line changes nothing and yields nothing |
| `GitProgress.LineIsRead` | server/src/restore-jobs.ts:375-384 | a line is read when a CR, a LF or both end it, with what was buffered of it |
| `Controller.AssistantController.constructor` | server/src/assistant-controller.ts:164-172 | the pointer read back is pinned |
| `Controller.AssistantController.Move` | server/src/assistant-controller.ts:365-377 | the pointer, and the pins moved with it |
| `Controller.AssistantController.RetireCurrent` | server/src/assistant-controller.ts:323-331 | a running turn is aborted and the session retired |
| `Controller.AssistantController.Create` | server/src/assistant-controller.ts:310-321 | a session created is remembered as own and pointed at; a failure changes nothing |
| `Controller.AssistantController.EnsureCurrentUnqueued` | server/src/assistant-controller.ts:300-308 | a pointer that names a session is kept, any other replaced |
| `Controller.AssistantController.ResetSession` | server/src/assistant-controller.ts:209-214 | retire, then create and point |
| `Controller.AssistantController.HandleSessionCreated` | server/src/assistant-controller.ts:224-235 | an own creation is ticked off, the pointer's own session ignored, any other adopted |
| `Controller.AssistantController.TargetForSend` | server/src/assistant-controller.ts:246-252 | the session a send goes to |
| `Controller.PinnedAlways` | server/src/assistant-controller.ts:365-370 | over every run exactly the pointer's session is pinned |
| `Controller.ReplacedIsRetired` | server/src/assistant-controller.ts:204-235 | over every run: a session that a reset or an adoption replaces was retired right before the pointer moved |
| `Controller.RetiresExactly` | server/src/assistant-controller.ts:209-235 | over every run with at most a hundred callbacks to come: a step retires a session exactly when it is pointed at and reset, or another session that is not an own creation is adopted; its turn is aborted first exactly when one is running |
| `Controller.PointsWhere` | server/src/assistant-controller.ts:200-252 | over every such run: where the pointer is after each operation, whatever was found, created or failed |
| `Controller.RememberAdds` | server/src/assistant-controller.ts:315-318 | remembering is adding to a set, which past the bound loses its oldest |
| `Controller.OwnCallbackMovesNothing` | server/src/assistant-controller.ts:156-162 | over every run with at most a hundred callbacks to come: the callback of an own creation changes neither the pointer nor any session |
| `Controller.OwnCallbacksExactly` | server/src/assistant-controller.ts:156-162 | over every run with at most a hundred callbacks to come, a further step of any kind leaves all own callbacks to be ticked off only, exactly when it leaves at most a hundred |
| `Controller.TickOffExactly` | server/src/assistant-controller.ts:317-318 | the same of every state in which the callbacks to come are the ones remembered |
| `Controller.OverflowMovesBack` | server/src/assistant-controller.ts:317-318 | every step past the bound, by an open, a reset, or a send that creates once or twice, leaves an oldest callback that moves the pointer back off the last creation |

## Left out

- Calendar and time-zone data: civil dates are day numbers with a calendar function, a zone is its offset function; `Date.UTC`'s reading of years 0 to 99 is not modelled.
- `parseCron`, `parseField` and `parseAtString`: the expression and the date-time are given parsed; reading their text would only add easy members.
- `RunLog`'s file and `ScheduleStore`: the run log is the sequence of what was recorded; `track` and `sinceFor` only choose the planner's `since`, which is arbitrary here.
- Scheduler.AssistantScheduler.DrainInline: `stop`, the tick timer and the log lines are not modelled; the code before the wait and the code after it are one step each.
- SchedulerRuns.FiresOnce: a send and its line in the run log are one step, so a crash between them is not covered, nor a line the file system refuses.
- SchedulerRuns.SendsApart: the end of a send counts as a separation whichever send of the session it is the end of, as the code does.
- UploadProtocol.StagedIsPrefix: the server side is what the protocol's comments say of it; `upload_abort`, the staging directory's clean-up and the encoding of a binary chunk frame are not part of this model, nor are the upload timers and the legacy base64 path.
- UploadEnds.UndisturbedCompletes: that a step which can happen does happen in time, and the stall timers, are not modelled.
- Upload.PendingUpload.HandleOffset: the throughput sample is any real number; only the clamp of the window matters.
- SessionRuns.AcceptedIsLatestChoice: tapping the session already shown does nothing in the code, even while a load is waited for, and is not counted as a choice. `session_interrupted`, `session_destroyed` and the rejection of a hydrated session are not modelled; a load names its session by file or by id.
- AgentRuns.DeliveredToOwnOrigin: sends relayed to a CLI terminal, whose queues the server cannot see, are not part of the runs. An entry's identity is its ticket number instead of the object.
- JsonlReader.ForEachJsonlLine: the read buffer's reuse and the copies it forces are not modelled, nor the periodic yield and files that cannot be opened; text is bytes, without UTF-8 decoding.
- TranscriptWindow.ReadTranscriptWindow: `JSON.parse` and the head probes are functions of the line; of an entry only what the history needs is kept.
- HistoryPairing.MapHistory: message ids are left out, timestamps are integers, and the test for an aborted result's text is a parameter; a tool named like a member of `Object.prototype` is not modelled.
- FrameChunks.FrameReassembler.Push: `Number` is a parameter; a code unit is any integer.
- DeltaCoalescer.SameStore: message ids and timestamps are left out, so the streaming message is found by position; the client's handling of other frames is any function.
- GitProgress.GitProgressParser.ParseLine: `path.resolve` and `path.relative` are a function from a clone's path to its scope; timestamps are left out.
- Controller.AssistantController.RetireCurrent: which queued messages were dropped, and the bounded record of them, are not modelled; nor are the pointer's file and the callbacks to channels.
- The restore job registry, drafts, stars, Telegram, upload and download gates, version policy, search, static files and the user interface: list edits, validation, wrappers and I/O.
