# AI Watch: a verified model

AI Watch keeps command-line AI providers alive. It runs probe and keepalive jobs against them, on
request or on a schedule, switches groups of providers over to a validated standby, routes their
traffic through a Mihomo subscription, and reports on what happened. This project models the parts of
it that decide, and proves what those parts are for. The Dafny files follow the program's components:

| file | component |
|---|---|
| `Failover.dfy`, `FailoverSafety.dfy`, `FailoverLocks.dfy`, `FailoverStore.dfy` | the failover protocol as a state machine over the steps of all goroutines, what every interleaving keeps, the per-group lock, and what the group store accepts |
| `FailoverStanding.dfy`, `FailoverCopies.dfy` | which steps change the active provider of a group, how long a switch stands, and which held copies can undo it |
| `FailoverEffects.dfy`, `FailoverManager.dfy` | the same code in place: groups, locks and jobs of one manager object, what each piece of it means, and that it follows the protocol |
| `Streaks.dfy` | the bounded scans for consecutive failures and successes |
| `JobManager.dfy`, `EventStream.dfy` | the job table, its locks, the history, and the resumable event stream |
| `Keepalive.dfy` | the phase of a keepalive job |
| `ScheduleTime.dfy`, `Reconcile.dfy` | occurrences and next runs; the reconcile pass over stored schedules |
| `ProxyConfig.dfy` | apply, clear and restore of the Mihomo subscription against failing calls |
| `Idempotency.dfy` | the idempotency middleware over its in-memory store |
| `Reliability.dfy`, `Percentile.dfy` | the reliability report and its percentile |
| `Alerts.dfy`, `AlertRestart.dfy` | alert cadence, and what a restart reads back of it |
| `Notifications.dfy`, `Slo.dfy` | notification aggregates, error budgets |
| `CodexConfig.dfy`, `CodexRoundTrip.dfy` | the Codex configuration printer and parser |
| `StreamWriter.dfy` | the bounded redacting writer of process output |
| `Redaction.dfy`, `RedactedStream.dfy` | the redaction of secrets and credentials, and the writer with it |
| `Wrappers.dfy` | shared types |

Objects that the program updates in place are classes here; their `Valid()` holds between any two
calls, so over all runs. Protocols between goroutines are state machines whose steps are what one
goroutine does between two points at which another can run. What the program gets from outside (the
clock, random ids, the resolver, the network, whether a save succeeds) is a parameter that may take
any value. `dafny verify dfyconfig.toml` checks the project.

Some promises hold only on a condition that the code does not check. The exact condition is proved,
with the failing case beside it:

- the bounded scans miss failures behind many stopped requests (`Streaks.ScanIsExactIff`);
- a finished occurrence of a schedule runs again when its provider group cannot be resolved for one
  pass within the window (`Reconcile.FinishedRestartsIff`), when a pass comes between the end of its
  job and the job's mark (`Reconcile.MarkPreventsIff`), or when the late mark of another occurrence is
  written over its own (`Reconcile.LateMarkRestartsIff`);
- a switch made by hand lasts until someone undoes it exactly when at its commit no goroutine holds a
  copy with another provider that it may still write without reading the row again
  (`FailoverCopies.SwitchLastsIff`); an evaluation on request holds one without any lock, and its copy
  undoes the switch (`FailoverStanding.SwitchIsUndone`);
- redacting output block by block finds the matches that redacting it at once would find exactly when
  none lies across the end of a block (`Redaction.CutKeepsMatchesIff`); a label at the end of a line and
  its value on the next are shown when they are written in turn (`RedactedStream.TwoWritesShowTheValue`);
- the third pattern of the redaction marks a key and does not remove it (`Redaction.KeyStays`);
- a restart can silence an alert (`Alerts.RestartMissesAlertIff`), and forgets one that a hundred later
  events of its kind have crowded out (`AlertRestart.NewestIsShownIff`);
- the Codex parser knows neither escapes nor a hash inside quotes (`CodexRoundTrip.RoundTripIff`).

The idempotency middleware keeps its promise for every handler of the server; what a handler with
other status codes could do is `Idempotency.RunsTwiceIff` and `Idempotency.CompletedTwiceIff`.

## Model

| member | source | states |
|---|---|---|
| FailoverSafety.OnlyValidatedStandbysServe | internal/jobs/failover.go:110-445 | In every interleaving of the steps of all goroutines, with stale whole-group writes and failing saves, a stored group is active on its primary or on a provider that a validation job of this very group ran with success; `open` and `applied` advice names such a provider and that job, `validating` advice names the provider its job runs |
| FailoverSafety.HeldCopiesAreSafe | internal/jobs/failover.go:276-404 | The same holds of every copy of a group that any goroutine holds at any moment, however stale it is |
| FailoverSafety.NextSafe | internal/jobs/failover.go:18-445 | Every step of the protocol keeps that invariant of stored rows, held copies and what each goroutine remembers |
| FailoverSafety.RunSafe | internal/jobs/failover.go:18-445 | Every sequence of steps keeps it |
| FailoverSafety.SaveSafe | internal/store/provider_groups.go:191-229 | Writing any safe copy over any row keeps the store safe, although the write may carry over the advice of the row it replaces |
| FailoverSafety.ApplyCommitSafe | internal/jobs/failover.go:110-166 | A manual switch goes only to a provider that a successful validation job of the group ran, also when the copy it decides on is stale |
| FailoverSafety.ValidateEndSafe | internal/jobs/failover.go:276-306 | Advice is opened, and an automatic switch prepared, only for a standby whose job was seen to succeed |
| FailoverSafety.ActivateSafe | internal/jobs/failover.go:431-445 | The automatic switch writes a safe group even though its copy was read before the validation wait |
| FailoverSafety.CompleteSafe | internal/jobs/failover.go:340-368 | The completion of a requested evaluation opens advice only for the provider its own job ran with success |
| FailoverSafety.RecoverSafe | internal/jobs/failover.go:370-404 | Going back to the primary, and re-reading the group before it, keep every copy safe |
| FailoverSafety.ProbeStartSafe | internal/jobs/failover.go:53-81 | Starting or deferring a recovery probe keeps the invariant, the new goroutine included |
| FailoverSafety.ManualSafe | internal/api/provider_groups.go:129-146 | A requested evaluation stores `validating` advice only for the provider its job was started with |
| FailoverSafety.ValidatingBranchUnreachable | internal/jobs/failover.go:177-202 | The branch of the evaluation loop for groups under validation is never taken, because validation jobs never reach it |
| FailoverSafety.StaleCopyUndoesSwitch | internal/api/provider_groups.go:95-146 | From any state in which a group can be switched, an evaluation on request that read the group before the switch undoes it by writing its copy back |
| FailoverStanding.ActiveChangesIff | internal/jobs/failover.go:18-445 | The active provider of a stored group changes in exactly these steps: its deletion, and an accepted write of a group that serves another one, where the writes are those of held copies, of the recovery that has seen enough successes, and of a switch |
| FailoverStanding.EstablishedIff | internal/jobs/failover.go:18-445 | A provider is established when it is active and so it is in every copy of the group that a goroutine may still write without reading the row again; one step keeps that exactly unless it deletes the group, or saves another provider that a switch, an activation or the return to the primary assigns on purpose |
| FailoverStanding.StandsIff | internal/jobs/failover.go:18-445 | Over every continuation, an established provider stays active exactly as long as no step is of that kind |
| FailoverStanding.SwitchStandsIff | internal/jobs/failover.go:131-165 | From every initial state and over every interleaving: a switch committed while no copy that may still be written serves another provider stands in a continuation exactly as long as no step is of that kind |
| FailoverCopies.SwitchLastsIff | internal/jobs/failover.go:131-165 | From every initial state and over every interleaving: no continuation takes a committed switch back, but by deleting the group or assigning another provider on purpose, if and only if at the commit no goroutine holds a copy of the group that serves another provider, that the store would accept, and that it may still write without reading the row again |
| FailoverCopies.BadCopyUndoes | internal/jobs/failover.go:18-445 | For each of the places at which a goroutine can hold such a copy there is a continuation in which it writes the copy and the provider is lost, although no step assigns another one |
| FailoverCopies.LastsIff | internal/jobs/failover.go:18-445 | The same equivalence for any active provider of a group whose lock is free |
| FailoverStanding.SwitchIsUndone | internal/api/provider_groups.go:95-146 | Such a copy does occur: from every initial state, every group that can be switched by hand has a run in which the switch is committed while an evaluation on request holds a copy, and is gone when that copy is written |
| FailoverStanding.SwitchIsUndoneOnce | internal/api/provider_groups.go:95-146 | One such run in full, from a store with one group |
| FailoverLocks.LockIsExclusive | internal/jobs/failover.go:261-274 | Over every run, a group is marked as running if and only if some goroutine still has to release it, and never two at once: no lock is shared, lost or left behind |
| FailoverLocks.NextExclusive | internal/jobs/failover.go:33-108 | Each step keeps that, including the hand-over of the lock to the goroutine that waits for a recovery probe |
| FailoverLocks.HandOver | internal/jobs/failover.go:77-81 | Handing the lock from the reconcile loop to the waiting goroutine keeps it held exactly once |
| FailoverManager.NormalizeGroup | internal/store/provider_groups.go:37-93 | The in-place defaulting and checking of members, active provider, thresholds, intervals and maintenance window accepts and yields exactly what the protocol assumes a stored group to be |
| FailoverManager.Members | internal/store/provider_groups.go:43-51 | The scan with its set of seen ids accepts a member list if and only if no backup is empty and no id occurs twice |
| FailoverManager.Manager.Upsert | internal/store/provider_groups.go:191-229 | A whole-group write either changes exactly one row to the normalized group, with the old advice if it brings none, or changes nothing |
| FailoverManager.Manager.Take | internal/jobs/failover.go:18-445 | Whichever goroutine runs next, the manager in place moves exactly as the protocol says and stays safe and exclusive |
| FailoverManager.Manager.ApplyCommit | internal/jobs/failover.go:131-166 | A switch by hand happens if and only if the held copy is enabled, on manual approval, outside maintenance, with open advice of a validation on record that names the suggested backup and is unchanged since the operator saw it, and the write is accepted; then the row serves that provider, which a job of this group validated, on applied advice and without probe marks. No other row, no job and no other lock changes; the lock is given back in any case, and the operator is told of a switch, of an earlier one, or why there is none, exactly as it is |
| FailoverManager.Manager.EvaluateNext | internal/jobs/failover.go:184-230 | A round of the evaluation writes no row. The lock is taken and validation begins with the first standby if and only if the group is enabled, outside maintenance, its primary is the event's provider and ended in neither success nor stop nor still runs, has failed at least as often as the threshold, no advice is open, none is younger than a positive cooldown, and the lock is free; recovery is watched if and only if such a group's primary ended in success; otherwise the next group is up |
| FailoverManager.Manager.ValidateNext | internal/jobs/failover.go:276-306 | The one job that runs the next standby for this group is added if it starts, and then awaited; if not, the standby after it is up. Behind the last one the lock is given back and an accepted write says that none passed, beside the active provider of the copy |
| FailoverManager.Manager.ValidateDone | internal/jobs/failover.go:287-300 | A job that was not seen to succeed leads to the next standby. One that was has validated its standby for this group: advice for it is written beside the active provider of the copy, and a stored one leads to the switch if and only if the group switches on its own, is outside maintenance and does not serve it already; otherwise the lock is given back |
| FailoverManager.Manager.Activate | internal/jobs/failover.go:431-445 | An accepted automatic switch makes active a standby that a job of this group validated; otherwise nothing is written. No other row changes, the goroutine's lock is given back, and it goes on where the nested call was made |
| FailoverManager.Manager.CompleteRead | internal/jobs/failover.go:340-353 | The result is judged on the row as it is now, and only while its advice still waits for this very job: the copy is the row with its advice stamped, opened if a success was seen, which then has validated the suggested standby, and marked as failed otherwise. Nothing is written |
| FailoverManager.Manager.CompleteWrite | internal/jobs/failover.go:354-367 | What is judged is written beside the active provider of the copy; a switch follows if and only if that was an accepted success on an automatic group outside maintenance that does not serve the standby already |
| FailoverManager.Manager.RecoverRead | internal/jobs/failover.go:370-380 | The row is read afresh, with the probe marks of the caller; the goroutine gives back its lock exactly when the row is gone. Nothing is written |
| FailoverManager.Manager.RecoverWrite | internal/jobs/failover.go:381-404 | Standing advice is closed if and only if the successes reach the threshold; an accepted write then serves the primary if the group is automatic or was switched by hand, and otherwise the provider of the copy. The goroutine gives back its lock and goes on where the call was made |
| FailoverManager.Manager.ProbeNext | internal/jobs/failover.go:42-63 | A probe is begun if and only if the group is enabled, served by a standby on standing advice, outside maintenance, not probed within its interval, its lock free and its mark accepted; then the lock is taken and the active provider stays that of the copy, and otherwise no row and no lock changes |
| FailoverManager.Manager.ProbeStart | internal/jobs/failover.go:64-81 | If the probe of the primary starts, its job is added and the lock goes to the goroutine that waits for it; if not, the lock is kept while the mark is taken back, or given back when the row is gone |
| FailoverManager.Manager.ProbeDefer | internal/jobs/failover.go:64-76 | The mark of a probe that did not start is cleared, beside the active provider of the copy, and the lock is given back |
| FailoverManager.Manager.ProbeRead | internal/jobs/failover.go:85-96 | The waiting goroutine goes on with the row as it is now exactly while a standby serves on standing advice, and otherwise gives its lock back |
| FailoverManager.Manager.ProbeWrite | internal/jobs/failover.go:97-107 | The outcome is recorded beside the active provider of the copy; the lock is kept exactly when a recorded success leads on to the recovery |
| FailoverManager.Manager.ManualStart | internal/api/provider_groups.go:110-137 | A requested evaluation adds the job of the first backup if and only if the group is enabled, has members, is outside maintenance, and the job starts; otherwise the request is over |
| FailoverManager.Manager.ManualSave | internal/api/provider_groups.go:138-145 | The request is stored with the standby that this group's job validates, beside the active provider of the copy; the goroutine goes on exactly when it was stored |
| FailoverManager.Manager.Enter | internal/jobs/failover.go:18-33 | Whoever enters holds the rows as they are now; only a switch by hand asks for the lock of its group and takes it if it is free, and only the ends of jobs that neither failover nor recovery started are evaluated |
| FailoverManager.Manager.EditSave | internal/api/maintenance.go:108-148 | Writing a maintenance window keeps the active provider of the copy and sets exactly that window |
| FailoverStore.NormalizeIff | internal/store/provider_groups.go:37-93 | A group is accepted if and only if what is kept for it, itself with the defaults of five fields, has a primary and one to nineteen backups, all different and none empty, one of them active, its four numbers in range, and a maintenance window that ends after it starts |
| FailoverStore.KeptIsKept | internal/store/provider_groups.go:37-93 | What the store keeps is accepted again as it is |
| FailoverStore.SaveIff | internal/store/provider_groups.go:191-229 | A write is accepted if and only if the store works, the group is acceptable, and it has a row or there are fewer than fifty; then its row is the group as kept, with the old advice if it brings none, and no other row changes |
| FailoverStore.MaintenanceIsOneInterval | internal/domain/model.go:292-301 | Maintenance is one stretch of time, from the start or from ever on until just before its end |
| FailoverStore.SnapshotsAre | internal/jobs/failover.go:172-183 | The copies an evaluation reads are exactly the rows that exist, in their order |
| Streaks.ConsecutiveFailures | internal/jobs/failover.go:233-259 | The failure scan, with its early returns, yields the trailing run of the fetched events capped at the limit |
| Streaks.ConsecutiveSuccesses | internal/jobs/failover.go:406-429 | The success scan likewise |
| Streaks.RolesIff | internal/jobs/failover.go:244-253 | Which events end each run, which do not matter, and which count, for failures and for successes |
| Streaks.WindowIff | internal/jobs/failover.go:237-237 | A scan fetches twenty events, or twice as many as it counts if that is more |
| Streaks.ScanIsExactIff | internal/jobs/failover.go:233-259 | A scan never exceeds the true trailing run of the whole history, and falls short exactly when no fetched event breaks the run, fewer than `limit` count, and older events go on with it |
| Streaks.FewSkippedSuffice | internal/jobs/failover.go:237-241 | The scan is exact whenever at most (window - limit) of the fetched events are skipped |
| Streaks.StopsHideFailures | internal/jobs/failover.go:237-253 | For every limit there is a history whose failures the scan misses altogether behind stopped requests |
| Streaks.TrailIsStreak | internal/reliability/service.go:431-440 | The trailing run of the failure scan is the streak of the reliability report over the events no validation triggered, plus the unfinished requests since the last success |
| Streaks.ScanIsStreakIff | internal/reliability/service.go:431-440 | Without validation events and with few skipped ones, the scan and the streak of the report agree exactly when no request since the last success is unfinished or the streak has reached the limit |
| EventStream.ResumptionIsContiguousIff | internal/jobs/manager.go:772-816 | Replay followed by the live events is the run of events published after `after` (or from the oldest kept), the events themselves and not their ids alone, exactly when no event was dropped for want of buffer |
| EventStream.GotIsIncreasing | internal/jobs/manager.go:622-627 | Whatever was dropped, a subscriber gets events with strictly increasing ids, each the event published under that id since it joined |
| EventStream.LosslessGot | internal/jobs/manager.go:622-627 | A subscriber whose buffer never filled gets every event since it joined, in order |
| EventStream.UnseenIsSuffix | internal/jobs/manager.go:794-799 | Of a ring, the events with ids above `after` are its end: the published events after `after` as far as they are kept |
| EventStream.ClaimedFutureIsRepeated | internal/jobs/manager.go:772-796 | A subscriber that claims events not published yet is not resumed where it claims to be: the stream starts at the next event |
| EventStream.AppendKeepsRing | internal/jobs/manager.go:608-627 | One more event keeps the ring the last 256 events, numbered without gaps |
| JobManager.SubscriberSeesTheRunIff | internal/jobs/manager.go:772-816 | What a resuming subscriber of a live job has been given, taken or still queued, is exactly the gap-free run of published events, if and only if its buffer had room each time |
| JobManager.After | internal/jobs/manager.go:794-799 | The replay loop returns the end of the ring, as published: exactly the kept events with ids above `after` |
| JobManager.Runtime.Publish | internal/jobs/manager.go:608-627 | An event gets the next id, enters the ring, and is offered once to every open subscriber channel; the stream invariant of each is kept |
| JobManager.Runtime.End | internal/jobs/manager.go:510-547 | The end of a job publishes a clean-up and then a job state as its last two events, offers both to every subscriber, and closes every channel once, none being sent to afterwards |
| JobManager.Manager.Start | internal/jobs/manager.go:211-234 | A start is refused exactly while shutting down, else exactly with eight live jobs, else exactly when another job has its target, which is named; a started job is live and owns its lock and schedule entry, a refused one changes nothing |
| JobManager.Manager.Finish | internal/jobs/manager.go:503-548 | A job publishes its clean-up and its last state, leaves table, lock and schedule map and enters the bounded history; finishing it again changes nothing |
| JobManager.Manager.Subscribe | internal/jobs/manager.go:772-816 | Replay is the end of the ring, exactly the kept events after `after` as they were published; unknown jobs are refused; a finished job gets a closed channel |
| JobManager.Manager.Unsubscribe | internal/jobs/manager.go:808-815 | Leaving, also after the job has ended, closes the channel at most once |
| JobManager.Manager.Stop | internal/jobs/manager.go:751-771 | Exactly the named live job is cancelled; a job neither live nor in the history is not found |
| JobManager.Manager.SetHistoryLimit | internal/jobs/manager.go:861-869 | The history is cut to its newest part |
| JobManager.Manager.Shutdown | internal/jobs/manager.go:872-890 | The manager is closing, which makes every later start be refused, and every live job is cancelled |
| JobManager.Manager.Receive | internal/jobs/manager.go:801-807 | A subscriber takes its oldest queued event, and no stream of any job is disturbed |
| JobManager.TableAdds | internal/jobs/manager.go:217-231 | A started job keeps the locks the exact inverse of the live jobs, at most eight of them, and every schedule entry on a live job of its schedule |
| JobManager.TableRemoves | internal/jobs/manager.go:515-534 | A finished job keeps that too, and takes only its own schedule entry along |
| JobManager.LogFinishes | internal/jobs/manager.go:523-531 | No id is both live and in the history, and no id is in it twice |
| ProxyConfig.Service.Apply | internal/proxyconfig/service.go:136-185 | For every pattern of failing calls, Apply makes store, file and controller the new subscription, or rolls back, or reports a failed rollback; the first failing call decides the error, and the status names the new URL with the nodes of the poll that was ready, or the former one as failed |
| ProxyConfig.Service.Clear | internal/proxyconfig/service.go:187-213 | The same for Clear |
| ProxyConfig.Service.Restore | internal/proxyconfig/service.go:242-276 | A startup restore runs the stored subscription or falls back to the base configuration, keeps the stored URL in every case, and reports it with the nodes of the poll that was ready, or as failed |
| ProxyConfig.Service.RestorePrevious | internal/proxyconfig/service.go:344-363 | The rollback goes back to the previous file, or to one generated for the stored URL, or to the base configuration |
| ProxyConfig.Service.WaitForGroup | internal/proxyconfig/service.go:312-335 | The retry loop succeeds if and only if the group becomes ready within the attempts, before the caller gives up |
| ProxyConfig.ReadyIff | internal/proxyconfig/service.go:314-318 | A reachable group with one node is ready, and none without |
| ProxyConfig.ApplyIsAtomic | internal/proxyconfig/service.go:136-185 | From resources in step, Apply is all or nothing in the URL, the running configuration and (beside a stored URL) the file |
| ProxyConfig.ClearIsAtomic | internal/proxyconfig/service.go:187-213 | From resources in step, Clear is all or nothing |
| ProxyConfig.RunStaysConsistent | internal/proxyconfig/service.go:136-285 | Over every run of Apply, Clear and Restore, the running configuration is base or generated from the stored URL until a failed rollback is reported |
| ProxyConfig.OperationKeepsConsistent | internal/proxyconfig/service.go:136-285 | Each single operation keeps that, however its calls fail, unless it reports a failed rollback |
| ProxyConfig.RollbackRestoresRunningIff | internal/proxyconfig/service.go:337-363 | Exactly when a rollback brings back what ran before: not after a failed startup restore, where it starts the stored subscription |
| ProxyConfig.SuccessRestoresStep | internal/proxyconfig/service.go:136-276 | A successful operation brings all three resources into step, whatever earlier failures left behind |
| ProxyConfig.FailedRollbackConsistentIff | internal/proxyconfig/service.go:337-342 | Exactly when even a failed rollback leaves running and stored configuration consistent |
| ScheduleTime.NextScheduleRun | internal/jobs/scheduler.go:341-366 | The result is the least instant from now on at which the schedule is active; there is one exactly for an enabled schedule with a loadable zone and some weekday |
| ScheduleTime.OccurrenceIsTheWindow | internal/jobs/scheduler.go:314-335 | The occurrence of an instant names a day exactly when the instant lies in the window that opens on that day, for same-day, overnight and whole-day windows |
| ScheduleTime.ActiveIffInWindow | internal/jobs/scheduler.go:314-335 | A schedule is active exactly inside the windows of its enabled days |
| ScheduleTime.SameKeyIffSameWindow | internal/jobs/scheduler.go:314-335 | Two active instants share an occurrence key if and only if they lie in the same window, also across midnight |
| ScheduleTime.OccurrencesAdvance | internal/jobs/scheduler.go:314-335 | Occurrences never go back in time |
| ScheduleTime.ActiveSometimeIff | internal/jobs/scheduler.go:337-366 | A schedule is ever active exactly when its mask enables some weekday |
| ScheduleTime.ValidWindowHasSomeDay | internal/store/json.go:1093-1098 | A schedule that passes the store's checks of mask and window is in range and enables some weekday |
| ScheduleTime.WeekdayIsCivil | internal/jobs/scheduler.go:319-339 | The weekday by which the mask is asked is that of the civil date, by Zeller's congruence, for every date of the calendar; weekdays follow one another and day zero is a Thursday |
| ScheduleTime.DaysAreDates | internal/jobs/scheduler.go:314-335 | Local days count the dates of the Gregorian calendar one by one, leap years included, from the first of January 1970 |
| ScheduleTime.WeekdayEnabledIff | internal/jobs/scheduler.go:337-339 | The mask test reads the bit of weight two to the weekday, for every mask |
| ScheduleTime.MondayMorning | internal/jobs/scheduler.go:314-339 | One window in nanoseconds: a schedule for Mondays from nine to ten is active from Monday nine to just before ten, and not a day before or after |
| Reconcile.Scheduler.Pass | internal/jobs/scheduler.go:160-255 | A pass over all schedules, in whatever order, starts exactly those that are due and resolvable and that the checks and the lock table accept in their turn, leaves every schedule marked accordingly, cancels exactly the jobs outside their window or preempted by a probe, and loses exactly the finished current occurrences of schedules whose group cannot be resolved and those it starts before their mark is written |
| Reconcile.PassCancelsThese | internal/jobs/scheduler.go:160-227 | A pass asks a job to stop if and only if its schedule, its group resolved, is disabled or outside its windows, or it is a keepalive job on the target of a stored probe that waits for its start |
| Reconcile.ProbesGoOn | internal/jobs/scheduler.go:210-227 | No probe is cancelled by a pass inside its window |
| Reconcile.PassMarksThese | internal/jobs/scheduler.go:160-255 | What a pass writes to a row: a failing group or provider at most every five minutes in a row, queued or waiting for the window that holds the instant, and nothing to a schedule that is outside its windows, running or done there |
| Reconcile.Scheduler.JobEnds | internal/jobs/manager.go:503-548 | The end of a job clears its schedule entry and leaves its mark to be written; no terminal run of that occurrence was on record, unless it was lost |
| Reconcile.Scheduler.JobMarks | internal/jobs/manager.go:558-563 | The mark is written whenever it comes, whatever has happened to the schedule since; at most a finished mark it overwrites is lost |
| Reconcile.Scheduler.JobRuns | internal/jobs/manager.go:247-254 | A job that starts to run marks its schedule with its own occurrence |
| Reconcile.Scheduler.TryStart | internal/jobs/scheduler.go:235-254 | One candidate is started exactly when it is admitted and its target is free, marked as waiting when it is not free, and otherwise left alone |
| Reconcile.Scheduler.Save | internal/jobs/scheduler.go:65-112 | Saving a schedule keeps its marks, stops its job and, by a revision later than the last save of that id, makes its old occurrences unstartable |
| Reconcile.Scheduler.Delete | internal/jobs/scheduler.go:114-121 | Deleting a schedule stops its job |
| Reconcile.Scheduler.StopScheduleJob | internal/jobs/scheduler.go:123-137 | Exactly the job of the schedule is cancelled |
| Reconcile.Scheduler.ConsiderAll | internal/jobs/scheduler.go:166-208 | The first half of a pass: candidates, marks, cancellations and lost occurrences are those of each schedule on its own |
| Reconcile.Scheduler.Preempt | internal/jobs/scheduler.go:210-227 | The live jobs change in nothing but that some are asked to stop: exactly the scheduled keepalive jobs on the target of a candidate that is a probe |
| Reconcile.Scheduler.StartAll | internal/jobs/scheduler.go:235-254 | The second half: each candidate is started, marked as waiting, or left alone, as the lock table answers in its turn |
| Reconcile.StartedIsNew | internal/jobs/scheduler.go:160-255 | A pass starts an occurrence only if its schedule has no live job and none of its runs has been terminal, unless its finished mark was overwritten or is still to be written |
| Reconcile.FinishedRestartsIff | internal/jobs/scheduler.go:169-177 | A finished occurrence is run again after a pass exactly when that pass could not resolve the schedule's provider group: the next pass that can, while the window is open, starts it |
| Reconcile.MarkPreventsIff | internal/jobs/manager.go:503-563 | Between the end of a job and its mark, a pass starts the same occurrence again; after the mark, exactly when its status is not terminal |
| Reconcile.LateMarkRestartsIff | internal/jobs/manager.go:558-563 | A late mark, of whatever occurrence, that is written over the finished mark of the current one lets the next pass start that one again exactly when it is not itself a terminal mark of it; before, no pass would |
| Reconcile.LateMarkForgetsIff | internal/jobs/manager.go:558-563 | The late mark of a job makes the store forget exactly a finished current occurrence that it overwrites so |
| Reconcile.GroupForgetsIff | internal/jobs/scheduler.go:169-177 | The mark of a failing group makes the store forget exactly a finished occurrence whose window is open |
| Reconcile.StartsIffFirst | internal/jobs/scheduler.go:229-254 | Of candidates that share a target at most one is started: a candidate is started exactly when it is admitted, its target was free before the pass, and no earlier candidate took it |
| Reconcile.ProbeOwnsTarget | internal/jobs/scheduler.go:210-254 | While a probe that is admitted is a candidate, no scheduled keepalive on the same target is started in that pass |
| Reconcile.OneLiveJob | internal/jobs/scheduler.go:160-255 | A schedule never has two live jobs, and the one it has runs an occurrence that is unfinished or lost |
| Reconcile.SkippedIffFinished | internal/jobs/scheduler.go:298-312 | In all reachable states, unless it is lost or its mark is still to come, the current occurrence is skipped exactly when it has had a terminal run |
| Reconcile.CurrentIffOpen | internal/jobs/scheduler.go:307-335 | An occurrence whose window has opened is the current one exactly until its window closes or the schedule is saved again |
| Reconcile.MarkKeepsAll | internal/jobs/scheduler.go:160-255 | Whatever mark is written, by a pass or by a job, at most the finished occurrence it overwrites while its window is open is lost |
| Reconcile.CurrentMarkKeepsAll | internal/jobs/scheduler.go:192-250 | The marks a pass makes for an occurrence it does not skip lose nothing |
| Reconcile.EndKeepsAll | internal/jobs/manager.go:503-548 | The end of a job keeps the history free of a second terminal run, and its occurrence counts as unmarked until the mark is written |
| Reconcile.MarkedKeepsAll | internal/jobs/manager.go:558-563 | Once a terminal mark stands, its occurrence is unstartable without any further record |
| Reconcile.BeginKeepsAll | internal/jobs/manager.go:229-239 | A start keeps the history free of anything after a terminal run of an occurrence that is not lost |
| Reconcile.PassIsPointwise | internal/jobs/scheduler.go:160-255 | The two halves of a pass, with the sort between them, do to each schedule what the pass rule says for it alone |
| Reconcile.CandidatesAreResolved | internal/jobs/scheduler.go:166-208 | The candidates are exactly the due and resolvable schedules, once each |
| Reconcile.SortIsOrdered | internal/jobs/scheduler.go:229-234 | Probes are tried before keepalive jobs, each group by schedule id |
| Idempotency.HandlerRunsAtMostOnce | internal/api/idempotency.go:51-92 | For any number of concurrent requests with one key and any interleaving, panics included, the handler runs at most once and the record is completed at most once, for handlers that pass on valid status codes, as all of the server's do |
| Idempotency.RunsTwiceIff | internal/api/idempotency.go:68-92 | Over handlers of any kind: some run runs the handler twice for a key exactly when the calls of the handlers set a status of zero or below |
| Idempotency.CompletedTwiceIff | internal/api/idempotency.go:74-91 | Some run completes a key twice exactly when the calls set a code outside 100 to 999, which makes sending the response panic under the deferred recovery |
| Idempotency.SecondRunIff | internal/api/idempotency.go:56-82 | A step makes the second run of the handler exactly when a request settles that has waited and read a record with a status of zero or below; that request then handles |
| Idempotency.UnsendableOnlyInWindow | internal/api/idempotency.go:74-91 | A record with a code that cannot be sent stands only while its owner is sending it, between the two completions of the key |
| Idempotency.ReplaysAreTheOwners | internal/api/idempotency.go:68-92 | Whatever the handlers do, as long as the handler ran at most once for the key, every replay repeats what its owner was answered or is being sent, which is what the handler returned to the owner, or the internal error of its panic, and goes only to a request with the same fingerprint |
| Idempotency.AnswersAreTheHandlers | internal/api/idempotency.go:74-114 | In every run, who is answered by its own handler gets the code of that handler's first call, or 200, its content type, and all the bytes it wrote, in order; every replay repeats those of a handler that returned to a request for the same key, or the internal error of a panic |
| Idempotency.ConflictIff | internal/api/idempotency.go:56-61 | In every run, a request that was answered was refused as conflicting if and only if the key is recorded for another request |
| Idempotency.WaitingEndsIff | internal/api/idempotency.go:62-73 | A waiting request gives up only on a pending record, re-reads it, and replays a completed one if its code can be sent |
| Idempotency.FingerprintNeverChanges | internal/api/idempotency.go:123-156 | The fingerprint recorded for a key never changes, whatever the handlers return |
| Idempotency.FallThroughUnreachable | internal/api/idempotency.go:68-92 | With handlers that pass on valid status codes, a request that polled never reaches the handler and its replay never panics |
| Idempotency.ValidCodeIff | internal/api/idempotency.go:88-90 | The codes that can be sent are those of three digits |
| Idempotency.NextKeepsKey | internal/api/idempotency.go:51-92 | Every step keeps what is known of owner, waiters and record of a key |
| Idempotency.Capture | internal/api/idempotency.go:95-114 | Whatever calls a handler makes, the captured status is decided by the first one and the body is all bytes written, in order |
| Idempotency.MemoryStore.Claim | internal/api/idempotency.go:123-135 | The first claim of a key owns it; any later one gets the record and changes nothing |
| Idempotency.MemoryStore.Complete | internal/api/idempotency.go:148-156 | Completing replaces exactly the record of the key |
| Reliability.LoadEvents | internal/reliability/service.go:324-337 | Paging returns the whole list, in order |
| Reliability.Build | internal/reliability/service.go:129-178 | The accumulators and buckets filled in place count exactly the samples: over all, by provider, and by the bucket of their time |
| Reliability.ProvidersConserve | internal/reliability/service.go:157-175 | Of requests, successes, failures, stops and every single status, the providers together have exactly what the report has over all |
| Reliability.BucketsConserve | internal/reliability/service.go:160-178 | The buckets together have what the report has over all, less what lies a whole bucket or more before the range |
| Reliability.InRangeConserve | internal/reliability/service.go:144-178 | For events of the range nothing is lost, for all three ranges |
| Reliability.SlotCovers | internal/reliability/service.go:167-174 | A sample of the range is counted in the bucket that covers its time, the end of the range in the last one |
| Reliability.OutsideIff | internal/reliability/service.go:167-170 | With a quotient that truncates toward zero, exactly the samples a whole bucket or more too early get no bucket |
| Reliability.BucketWidths | internal/reliability/service.go:311-318 | The buckets of a day are hours, those of a week quarter days, and those of a month days |
| Reliability.PartsMakeTheWhole | internal/reliability/service.go:144-178 | Counting by any classification conserves every measure |
| Reliability.FinishMetrics | internal/reliability/service.go:411-442 | Completed, rates, percentile, current and longest streak are those of the samples |
| Reliability.AddToBucket | internal/reliability/service.go:167-174 | One sample changes exactly its bucket, in place |
| Reliability.Streaks | internal/reliability/service.go:431-441 | The fold yields the streak the samples end in and the longest that any prefix ends in |
| Percentile.P95 | internal/reliability/service.go:425-430 | With five or more durations the index is in range and the value is the least recorded duration that 95 percent stay within |
| Percentile.P95Unique | internal/reliability/service.go:425-430 | The percentile does not depend on the order in which durations arrive |
| Percentile.RankedIsP95 | internal/reliability/service.go:427-428 | The element of rank ceil(0.95 n) of the sorted durations is that least covering duration |
| Alerts.Evaluator.Evaluate | internal/jobs/reliability_alerts.go:43-119 | Over any history and any other providers in between, an alert fires exactly when one is due, a recovery exactly when one is due, and the saved events say so |
| Alerts.FiresIff | internal/jobs/reliability_alerts.go:141-152 | Comparing the streak with the remembered count fires exactly when the streak is a multiple of the threshold, an auxiliary reason holds, and this count of this streak has not been alerted |
| Alerts.AuxiliaryIff | internal/jobs/reliability_alerts.go:130-139 | With enough requests, a success rate below its limit and a percentile above its own are each a reason by itself; with fewer, or with neither, there is none |
| Alerts.StreakRunsBack | internal/reliability/service.go:431-441 | The streak counts the failures since the last success |
| Alerts.SuccessesRunBack | internal/jobs/reliability_alerts.go:105-110 | The recovery count counts the successes since the last failure |
| Alerts.RememberedStep | internal/jobs/reliability_alerts.go:78-118 | From what the state remembers, one evaluation learns exactly what is due and what to remember next |
| Alerts.AlertedNext | internal/jobs/reliability_alerts.go:91-118 | A provider is alerted from an alert until enough successes in a row |
| Alerts.RecoveryIsPrompt | internal/jobs/reliability_alerts.go:105-118 | A recovery comes with exactly the last of the successes it waits for, never at a stop or later |
| Alerts.CountIsRemembered | internal/jobs/reliability_alerts.go:84-86 | The remembered count equals the streak exactly when that count has been alerted in this streak |
| Alerts.RestartKeepsStateIff | internal/jobs/reliability_alerts.go:158-189 | The state read back at a restart is the one lost exactly when the provider is not alerted or nothing has succeeded since its last alert |
| Alerts.RestartMissesAlertIff | internal/jobs/reliability_alerts.go:158-189 | After a restart a due alert is missed exactly when an alerted provider's streak has just reached the count of its last alert again; no undue alert fires |
| Alerts.RestartSilencesAlert | internal/jobs/reliability_alerts.go:158-189 | A concrete run in which that happens |
| AlertRestart.ReliabilityState | internal/jobs/reliability_alerts.go:158-189 | The scan over three lists of at most a hundred events ends with the state of the newest listed event of the key, whichever list it is on |
| AlertRestart.NewestIsShownIff | internal/jobs/reliability_alerts.go:168-172 | The scan decides on the newest saved event of the key exactly when fewer than a hundred events of its kind, of any key the filter lets pass, were saved after it |
| AlertRestart.ScannedStateIff | internal/jobs/reliability_alerts.go:158-189 | Then the state read back is the one lost exactly when the provider is not alerted or nothing has succeeded since its last alert |
| AlertRestart.CrowdedOutIsForgotten | internal/jobs/reliability_alerts.go:168-187 | A first alert that a hundred later ones have crowded out is forgotten at a restart |
| AlertRestart.ListedIff | internal/store/json.go:1279-1326 | A list holds exactly the newest matching events up to its limit |
| AlertRestart.SameKindIff | internal/jobs/reliability_alerts.go:168-172 | The three kinds of saved events are told apart |
| CodexRoundTrip.RoundTripIff | internal/configscan/scanner.go:444-488 | A printed configuration parses back to provider, model and base URL, whatever the environment, exactly when model and URL contain no double quote, backslash or hash and neither begin nor end with a single quote, the URL is not empty, and both fit the scanner's line buffer |
| CodexRoundTrip.ParsedPrint | internal/configscan/scanner.go:444-488 | What is parsed of any printed configuration, long lines and awkward characters included |
| CodexRoundTrip.QuoteReadIff | internal/configscan/scanner.go:461-461 | A quoted value is read back unchanged exactly when it is plain |
| CodexRoundTrip.FeedSetting | internal/configscan/scanner.go:449-475 | A setting line assigns what stands behind its equals sign, up to a hash, without outer space and quotes |
| CodexRoundTrip.SettingChangesOne | internal/configscan/scanner.go:461-479 | A setting line changes exactly one field: in the section of the chosen provider its address, its key or its key variable, at the top the provider or the model, and none elsewhere |
| CodexRoundTrip.FeedSection | internal/configscan/scanner.go:453-456 | A section line enters exactly its section |
| CodexRoundTrip.ScannedLines | internal/configscan/scanner.go:447-448 | The scanner delivers the printed lines up to the first that is too long |
| CodexRoundTrip.LinesAreClean | internal/secureconfig/service.go:864-866 | No printed line contains a line break, whatever printable text the fields hold |
| CodexConfig.ParseCodex | internal/configscan/scanner.go:444-488 | The line loop with its changing section and fields computes what feeding the lines one by one computes, with the defaults at the end |
| CodexRoundTrip.EmptyText | internal/configscan/scanner.go:480-486 | A text that sets nothing names the default provider at the address of the environment |
| StreamWriter.LosslessIff | internal/runner/runner.go:385-402 | Blocks handed to the redaction followed by the pending bytes are all the bytes written exactly when no write without a newline left a line over the limit |
| StreamWriter.ChunksDoNotMatter | internal/runner/runner.go:385-413 | After the final flush the buffer is the end of the redacted whole, for any redaction, if no line overflowed and the redaction is not changed by the cuts of this very run |
| StreamWriter.RedactedAtOnceIff | internal/runner/runner.go:385-413 | At every moment of a run what was shown is the redaction of everything handed over, exactly when no cut of the run changes the redaction |
| Redaction.CutKeepsMatchesIff | internal/security/redact.go:25-45 | For every text, every cut behind a newline and every pass (a secret or one of the three patterns), the matches of the two parts are those of the whole exactly when no match of the whole lies across the cut |
| Redaction.UncutKeepsRedaction | internal/security/redact.go:25-45 | A cut behind a newline that no match of any pass lies across does not change the redaction of the whole chain of passes |
| Redaction.CutKeepsOutputIff | internal/security/redact.go:8-45 | For every text, a cut behind a newline leaves what the credential pass shows unchanged exactly when no match lies across the cut, or the value of that match reads like the placeholder already |
| Redaction.TornIff | internal/security/redact.go:8-45 | The match that the former speaks of lies across the cut exactly when one of the intervals that are replaced does |
| Redaction.NamesAreLabels | internal/security/redact.go:9-9 | The labels written as names of variables, `api_key` to `aws_secret_access_key`, are read as labels in letters of either case |
| Redaction.LabelsSpell | internal/security/redact.go:9-9 | The nine labels, written as names of variables |
| Redaction.PlaceholderSpells | internal/security/redact.go:28-43 | The placeholder is the text `[REDACTED]` |
| Redaction.FoldsIff | internal/security/redact.go:9-10 | Letters of labels match in either case |
| Redaction.BearerIff | internal/security/redact.go:10-10 | The second pattern matches exactly the word `bearer`, white space, and a token of eight or more bytes, taken in full |
| Redaction.KeyIff | internal/security/redact.go:11-11 | The third pattern matches exactly `sk-` and at least eight more bytes of a key at the beginning of a word, up to the last that is no dash |
| Redaction.ClassesIff | internal/security/redact.go:8-12 | The classes of bytes of the patterns, by their characters |
| Redaction.KeyStays | internal/security/redact.go:11-43 | A key, which has neither a sign nor white space, is followed by the placeholder and not replaced by it |
| RedactedStream.UncutRunIsRedactedAtOnce | internal/runner/runner.go:385-413 | With the redaction of the program, a command whose lines never overflowed leaves the end of its redacted output, however it was written, if no match lies across the end of a block |
| RedactedStream.TwoWritesShowTheValue | internal/runner/runner.go:385-413 | The condition is needed: a label at the end of one line and its value on the next are shown when written in turn, and hidden when written at once |
| StreamWriter.Writer.Write | internal/runner/runner.go:385-402 | A write takes all its bytes, hands over exactly the completed lines as one block, and keeps blocks, pending bytes, buffer and callbacks in agreement |
| StreamWriter.Writer.Flush | internal/runner/runner.go:404-413 | A flush hands over exactly what is pending |
| StreamWriter.Writer.AppendClean | internal/runner/runner.go:415-420 | The buffer is the last `limit` bytes of all redacted output |
| StreamWriter.SuffixOfSuffix | internal/runner/runner.go:415-420 | Cutting after every append keeps the same bytes as cutting once |
| StreamWriter.CompleteAccounts | internal/runner/runner.go:390-393 | A write that completes lines loses nothing and splits no line |
| StreamWriter.PartialAccounts | internal/runner/runner.go:394-396 | A write that completes none loses bytes exactly when the line is over the limit |
| Notifications.Conservation | internal/jobs/notifications.go:89-226 | Over any run, the shutdown included, recorded events are those reported, taken back, discarded, or still counted by the kept targets and the dropped ones; at most 200 targets are kept |
| Notifications.AddTarget | internal/jobs/notifications.go:304-317 | One more event counts for its target or, over the capacity, as dropped, and the total grows by one |
| Notifications.ClearTarget | internal/jobs/notifications.go:160-175 | Clearing a target takes back exactly its count, and with the last target everything; the count cannot become negative |
| Notifications.SameTargetIff | internal/jobs/notifications.go:325-331 | Two jobs are counted as one target exactly when they run the same CLI for the same provider, or without one against the same address |
| Notifications.Aggregates.RecordKeepaliveSuccess | internal/jobs/notifications.go:89-122 | A report is made exactly when the period or the count is due, and has every success since the last one |
| Notifications.Aggregates.RecordProbeProgress | internal/jobs/notifications.go:124-152 | The same for probe attempts, by time |
| Notifications.Aggregates.QueueRecovery | internal/jobs/notifications.go:177-203 | A recovery is reported at once or merged exactly once; the timer is armed by the first of a period |
| Notifications.Aggregates.FlushRecoveries | internal/jobs/notifications.go:205-226 | The timer reports every merged recovery, or discards them when closing |
| Notifications.Aggregates.Shutdown | internal/jobs/manager.go:872-880 | Shutting down discards exactly what is kept, disarms the timer and closes; discarded events stay accounted for |
| Notifications.CountsMakeUpAll | internal/jobs/notifications.go:160-175 | No target counts more than what was kept, and one has it all only when alone |
| Keepalive.Job.Continue | internal/jobs/manager.go:443-488 | Over any attempts, phase, published marks and countdowns, notice and delay are those the trailing failures demand |
| Keepalive.ProbingIff | internal/jobs/manager.go:470-479 | A job probes for recovery exactly when at least its last `threshold` attempts all failed |
| Keepalive.MarksAlternate | internal/jobs/manager.go:444-479 | Phase and recovery marks alternate, beginning with the phase mark, and the last one tells the phase |
| Keepalive.PublishedMarks | internal/jobs/manager.go:444-500 | Countdowns apart, exactly these marks are published |
| Keepalive.CountdownsTellThePhase | internal/jobs/manager.go:489-500 | Every attempt publishes one countdown, last of all, which tells the phase in force after it |
| Keepalive.MarkPlaced | internal/jobs/manager.go:444-479 | A phase mark stands at the failure that completes the threshold, a recovery mark at the first success after |
| Slo.Calculate | internal/api/slos.go:125-188 | Paging and filtering count exactly the group's ended requests outside maintenance |
| Slo.MoreFailuresNeverHelp | internal/api/slos.go:173-223 | With samples and target fixed, more failures never give a healthier rank, rounding included |
| Slo.BurnNeverDecides | internal/api/slos.go:180-207 | While budget is left the rounded burn rate is at most one: the burn-rate clauses never decide |
| Slo.StatusIff | internal/api/slos.go:186-207 | What rounding makes of the thresholds, exactly, for exhausted, critical, burning and healthy groups |
| Slo.UnjudgedIff | internal/api/slos.go:186-196 | A group is disabled exactly when switched off, and insufficient exactly when enabled with fewer samples than asked for |
| Slo.EventsAreSorted | internal/api/slos.go:146-166 | Every event of the group counts as one of success, failure, excluded for maintenance, or not ended, whatever the others are |
| Slo.BudgetIs | internal/api/slos.go:170-184 | The view shows the failures still allowed, the share of them used up and the rate of using them up, to four and two decimals |
| Slo.RankOrder | internal/api/slos.go:208-223 | Groups are listed from the worst to the best, and then those that are not judged |
| Slo.RoundReachesIff | internal/api/slos.go:224-227 | A rounded value reaches a step exactly from half a step below it |

## Left out

- Reconcile.Scheduler.Pass: one step, so no job ends and nothing is saved between its two halves; failing writes of marks are left out.
- Reconcile.OneLiveJob: a start by hand under a schedule's id (`internal/jobs/manager.go:132-138`) is not a step; it does not look for a live job of the schedule, and its mark replaces the last one.
- Reconcile.Scheduler.Save: the time of the save is later than that of the last save of any schedule, so no two saves fall in the same nanosecond and the clock does not go back.
- FailoverSafety.OnlyValidatedStandbysServe: leaves out `POST /provider-groups`, which may store any active provider and advice; deleting a group and editing its maintenance window are steps.
- FailoverSafety.RecoverSafe: does not use the mutex that serializes recoveries (`internal/jobs/failover.go:371-372`), so it covers more interleavings than the program has.
- FailoverManager.Manager.Enter: what an operator is told of a switch while another goroutine has the group's lock is not modelled.
- FailoverCopies.BadCopyUndoes: the continuation chooses what comes from outside (the clock, the number of failures that a scan counts, whether a job starts and a save is accepted), each of which is a parameter of its own.
- ScheduleTime.NextScheduleRun: zones have a fixed offset; days of 23 or 25 hours are not modelled.
- JobManager.Manager.Subscribe: what the event store kept of a finished job is a parameter.
- JobManager.Manager.Shutdown: the waits for jobs and notifications and the closing of the event queue are not modelled; the reset of the aggregates is Notifications.Aggregates.Shutdown.
- JobManager.Manager.Start: option defaults and checks before the critical section are not modelled; the mark of a queued schedule is part of Reconcile.Scheduler.Pass.
- ProxyConfig.Service.Apply: URL parsing and the text of the generated file are a parameter and a value; a clock value stands for the cache path in it.
- Idempotency.HandlerRunsAtMostOnce: the in-memory store only; the Redis store and its expiry are foreign calls, and a failing claim passes the request on without a record. Codes from 100 to 199 count as sent.
- Alerts.Evaluator.Evaluate: asks for metrics whose streak is that of the evaluated request ends, in order; evaluations dropped under load, changed settings and the 24-hour window sliding over the streak are not modelled.
- Alerts.RestartKeepsStateIff: takes the newest saved event of the provider; the scan that looks for it is AlertRestart.ReliabilityState.
- AlertRestart.ReliabilityState: saved events have distinct times; a list that cannot be read, which the scan skips, is not modelled.
- Reliability.Build: takes the samples in the order of the program's sort; decoding events into samples, the last-request fields, anomalies and recommendations are left out.
- Percentile.P95: exact arithmetic for the floating-point rank.
- Slo.Calculate: exact reals for floating point, with the program's rounding.
- CodexRoundTrip.RoundTripIff: printable ASCII only; other characters are escaped by rules that are not modelled.
- Redaction.CutKeepsOutputIff: the credential pass on its own; a match across the cut by the word `bearer` whose value holds a sign is left open, since both outcomes occur there. For the whole chain of passes Redaction.UncutKeepsRedaction gives one direction.
- Redaction.CutKeepsMatchesIff: text is bytes, and letters match in both ASCII cases; the two non-ASCII characters that Go folds to `s` and `k` are not modelled.
- Notifications.Aggregates.QueueRecovery: sending is not modelled; a message that finds no free slot is lost after it was counted as reported.
- Streaks.ConsecutiveFailures: the store's list of the newest events is a parameter; a failing store makes the scan zero.
- FailoverManager.NormalizeGroup: ids come trimmed; name, CLI, scenario and service-level fields are left out.
- Incidents, postmortems, settings validation, provider resolution, Redis and SQLite, encryption, the HTTP layer, the front end and the DingTalk and Mihomo clients.
- Liveness: the bounded event queue can block a producer that holds the manager's mutex, and nothing is claimed about progress.
