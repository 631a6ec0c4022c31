# Monitoring engine: a verified model

This project models the monitoring engine of the backend in Dafny and proves
properties of it: heartbeat check-ins and deadlines, HTTP probes, the alert
outbox, the downtime rollup and retention, refresh-token families, cursor
pagination and the fixed-window rate limiter. `dafny verify dfyconfig.toml`
checks all of it.

## How it is put together

- `Model`, `Schedule`, `Rows` and `Outbox` hold the tables as values and what one
  transaction does to one row.
- `Engine` is the transition system. A step is one committed transaction:
  scheduler replicas claim rows in one step, keep them locked, and commit or
  abort in a later one; the alerter claims jobs in one step, which locks nothing
  afterwards, and dispatches them one by one; check-ins, probes, pauses, mutes,
  resumes, reminders and prune batches come in between in any order. A run is any
  finite sequence of enabled steps from the empty database. Next to the database
  a world keeps history that influences nothing: per monitor one entry for each
  transaction, the full event log, what was pruned, and the recorded outcome of
  each delivery.
- `Columns`, `Timeline`, `Locks`, `Log`, `Alerts`, `Delivery`, `Failures` and
  `Reminders` prove what every step keeps; `Guarantees`, `Downtime`, `Rollup`,
  `Audit`, `AtMostOnce`, `Recovery` and `Fairness` state what follows for all runs.
  `Examples` holds concrete runs in which a plausible property fails.
- `Storage` (class `Store`), `Dispatching` (class `Alerter`), `Draining` (class
  `TestClock`), `Sessions` (class `TokenStore`) and `RateLimit` (class `Limiter`)
  are the code in its own imperative form. Each method states what it leaves in the
  columns of the tables, with the source's constants, in the vocabulary of `Effects`,
  `Ticks` and `Acceptance`; and it is proved equal to the function that the theorems
  are about. `Refinement` shows that the scheduler tick, the alerter tick and the prune
  batch are steps of the engine.
- `Probes`, `Retention`, `DailyStats`, `Pagination` and `Selection` hold the
  remaining specifications and their theorems.

## Conventions and assumptions

- A monitor's id and slug are its position in the monitors table.
- Times are whole seconds; certificate times are nanoseconds. The database clock
  and the injected clock are one: an event carries the time its step is given.
- The zone database and the cron library are the functions of `Schedule.Calendar`.
  Results about deadlines assume `Forward()`: the next cron instant lies after
  the instant asked about. Period schedules are concrete.
- Per-second and recovery results ask for `InOrder`: a monitor's transactions are in
  time order and its down, up and resume events at distinct times. Results about the
  rollup and the audit ask for `Trackable`: `InOrder`, and every recorded probe of the
  monitor agreed with its row.
- Nothing else is assumed about what was pruned, unless a result asks for
  `StoredFrom(w, i, n, end)`: the monitor's downs and ups before `end` that are stored
  are those of its log from mark n on. n is 0 as long as none was pruned, and
  `Retention.CompletedPrune` shows that a completed prune keeps such an n. A partial
  prune, or an old event kept for its pending alert, can leave a hole; then the results
  without `StoredFrom` apply.
- A probe outcome is arbitrary, including the snapshot it was computed from.
  `AgreesOnDown` says that snapshot and row agree on whether the monitor is down.
  The results that need it say so, and `TimelineHoldsIffProbesAgree` shows that
  exactly this is needed. Heartbeat monitors are never probed.
- There is one alerter. An outcome may go unrecorded after the send.

## Where the code and its documentation differ

- `docs/ARCHITECTURE.md:41-60` calls delivery at most once and says that no row is
  resent that might have been delivered. The claim does not change the row
  (`backend/store/alerter.go:52-86`), so an alert whose outcome was not recorded is
  claimed again. A delivered alert can be delivered again exactly when the outcome of
  that delivery was not recorded: `AtMostOnce.RedeliverableIffUnrecorded`,
  `AtMostOnce.DeliveredTwiceOnlyIfUnrecorded`, `Examples.UnrecordedSendIsRepeated`.
- `backend/worker/alerter/alerter.go:31-37` speaks of about 31 minutes of retries. With
  three attempts only the first two delays, of one and five minutes, are ever used, and
  the one of 25 minutes never: `Delivery.OutcomesAreBounded`, which puts the third try
  more than 360 seconds after the first.
- `backend/db/daily_stats.sql.go:156-163` says that an outage without a later `up` counts
  as open to the end of the day. A resume also ends an outage and writes no `up`, so the
  query counts on to the window's end, and can even exceed the window:
  `Examples.RollupCanExceedItsWindow`.
- `backend/store/rollup.go:123-129` says that what is pruned has already been folded into
  the daily rows. An outage that is still open has not: once its down event is older
  than the retention, the query no longer sees it, and the days that follow show no
  downtime: `Examples.PrunedOutageIsMissed`.
- Together: the query is the down seconds, less those whose down event is gone, plus the
  time from each resume of a down monitor whose down event is stored
  (`Rollup.RollupIsDownSecondsLessMissedPlusOvercounted`, in every run). It is exact
  exactly when those two are equal; where one of them is absent, exactly when the other
  is (`Rollup.RollupExactIff`).
- `backend/cmd/soakaudit/main.go:198-209` treats two consecutive downs as a violation.
  They occur exactly when a monitor resumed while down goes down again:
  `Audit.AuditFindsDuplicateIffDownAgain`.
- `backend/store/session.go:95-97` says that logout revokes every token of the family. A
  rotation that has won its update and not inserted yet still inserts a current token
  afterwards; the family ends exactly when none is in flight:
  `Sessions.RevokedFamilyIsDeadIff`, `Sessions.RevokeCanBeOvertaken`.
- `backend/store/session.go:41-44` also counts a token of a revoked family as reuse that
  revokes the family. The code refuses a revoked token as invalid and changes nothing
  (`backend/store/session.go:63-64`): `Sessions.OtherReads`, `RotateRefreshToken`.

## Model

| member | source | states |
|---|---|---|
| Guarantees.TimelineHoldsIffProbesAgree | backend/store/checkin.go:132-179 | In every run with any number of scheduler replicas a monitor's timeline is sound (after each of its transactions the state was down exactly when the latest of its down, up and resume events was a down; each up directly follows a down; no two downs are adjacent) exactly when every recorded probe agreed with its row on being down; always for heartbeats |
| Guarantees.SerialIffProbesAgree | backend/store/prober.go:92-145 | The flag carried in a monitor's history says exactly whether all probes recorded so far agreed with their rows |
| Guarantees.ColumnsFollowHistory | backend/db/monitors.sql.go:887-896 | Last check-in, pause and mute flags are functions of the monitor's history, and a heartbeat's fail streak counts failed check-ins and missed deadlines since the last success |
| Guarantees.DeadlineSetIffArmed | backend/store/checkin.go:231-245 | A monitor has a deadline exactly when it is a scheduled heartbeat in state up or late |
| Guarantees.NeverEarly | backend/store/scheduler.go:61-97 | Whenever the scheduler takes a monitor down, a success or resume armed it before, nothing armed it or took it down by schedule since, the armed occurrence plus grace has passed, and in between it was made late exactly once, after the occurrence |
| Guarantees.PausedIsLeftAlone | backend/db/monitors.sql.go:16-19 | In every run, whenever the scheduler makes a monitor late or takes it down after a pause, a resume or an auto-resuming report lies in between, with any number of replicas |
| Guarantees.ActsOnlyUnpaused | backend/db/monitors.sql.go:16-19 | At every moment the scheduler acts on a monitor, the pause column that follows from its history is empty |
| Guarantees.ExpiryBounds | backend/schedule/schedule.go:72-103 | For a valid period schedule the expiry is arming + period + grace, at least 120 seconds on; for a valid cron schedule it is the next cron instant plus grace, more than 60 seconds on |
| Guarantees.OneDownPerArming | backend/store/scheduler.go:82-94 | Between two scheduler downs of a monitor there is an arming |
| Audit.AuditFindsDuplicateIffDownAgain | backend/cmd/soakaudit/main.go:198-209 | Among a monitor's stored downs and ups, which are those of its log from some mark on, the audit finds two consecutive events of one type exactly when a resume of a down monitor among those marks was followed by another down |
| Timeline.ProbeIsMarkedIff | backend/store/prober.go:114-133 | One probe's events fit the monitor's timeline exactly when its snapshot agreed with the row on being down |
| Timeline.ConsistentStep | backend/store/checkin.go:85-179 | One transaction of any kind keeps state, timeline, deadline and counters in agreement with the monitor's history |
| Locks.StepKeepsSound | backend/store/scheduler.go:33-54 | Every step keeps claimed rows locked, unchanged and due, and every monitor in agreement with its history |
| Locks.RunIsSound | backend/db/monitors.sql.go:14-22 | So does every run, whatever replicas claim, commit or abort |
| Log.RunKeepsLog | backend/db/events.sql.go:14-50 | In every run event ids count the events written and the events table is the full log without the pruned ids, in order |
| Alerts.ExactlyOneAlert | backend/cmd/soakaudit/main.go:116-133 | In every run each stored down, up and tls_expiry event has exactly one non-reminder alert, no other event has one, every alert references a stored event of its monitor and only downs have reminders |
| Alerts.StepKeepsAlerts | backend/store/checkin.go:184-221 | Every step keeps that pairing, also with stale probe snapshots and pruning |
| Fairness.NoStarvation | backend/db/monitors.sql.go:14-22 | While a due monitor waits, at most floor(2K / limit) claims pass over it plus one for each aborted claim, K being the other claimable monitors with deadlines no later, with check-ins, resumes and other replicas interleaved |
| Fairness.StepRank | backend/store/scheduler.go:33-97 | A claim that passes over the waiting monitor lowers the rank by the limit, an abort raises it by at most the limit, nothing else raises it |
| Rollup.RollupIsDownSecondsLessMissedPlusOvercounted | backend/db/daily_stats.sql.go:105-144 | In every run, whatever was pruned, the query's downtime for a window is the number of its seconds in state down, less those that no stored down accounts for, plus the time from the end of each resumed outage to the window's end |
| Rollup.RollupIsDownSecondsPlusOvercount | backend/db/daily_stats.sql.go:105-144 | With the downs and ups of the log stored from some mark on, it is the seconds in state down, less those before that mark, plus the time from each stored resume of a down monitor to the window's end |
| Rollup.RollupExactIff | backend/db/daily_stats.sql.go:105-144 | In that case, without a resumed outage among the stored marks it is exact exactly when the state was not down in the window before the first stored mark; and when it was not, it is exact exactly when no outage was resumed before the window's end |
| Rollup.RollupExactIffNoResumedOutage | backend/db/daily_stats.sql.go:105-144 | With no down or up pruned it is exact for a window exactly when no down monitor was resumed before its end |
| Rollup.RollupIsAdditive | backend/db/daily_stats.sql.go:106-143 | Without resumed outages among the stored marks downtime adds up over adjacent windows and never exceeds the window, although each query cuts the log at its own end |
| Rollup.QueryIsSecondsLessMissedPlusStale | backend/db/daily_stats.sql.go:106-143 | On any alternating log from which any transitions were deleted, the LEAD-and-clamp sum is the per-second count of "latest mark is a down", less the seconds whose down was deleted, plus what each stored down counts beyond the end of its outage |
| Downtime.QueryIsSecondsPlusOvercount | backend/db/daily_stats.sql.go:106-143 | On any complete alternating log the LEAD-and-clamp sum is the per-second count of "latest mark is a down" plus the overcount of resumed outages |
| Downtime.StateFollowsMarks | backend/store/checkin.go:132-179 | The state column and the down, up and resume events agree on every second |
| DailyStats.StoredDowntimeExactIff | backend/store/rollup.go:46-114 | In every run, whatever was pruned, a day's stored downtime is the number of its seconds in state down exactly when the seconds missed for lack of their down event are as many as those counted beyond the end of an outage |
| DailyStats.StoredDowntimeExactAfterPrune | backend/store/rollup.go:46-114 | The two conditions of `Rollup.RollupExactIff` decide whether a day's stored downtime is exact |
| DailyStats.UpsertedRow | backend/db/daily_stats.sql.go:270-282 | The rollup sets exactly the day's rows of monitors with statistics and leaves all other rows alone |
| DailyStats.RollupIsIdempotent | backend/store/rollup.go:43-45 | Running the rollup again over the same data changes nothing |
| DailyStats.CheckinCountsAreSizes | backend/db/daily_stats.sql.go:57-66 | The counts are the numbers of the monitor's stored check-ins of the day and of those of kind fail |
| DailyStats.ProbeCountsAreSizes | backend/db/daily_stats.sql.go:190-199 | The counts are the numbers of the monitor's stored probes of the day and of those that failed |
| DailyStats.OutageIffDowntime | backend/db/daily_stats.sql.go:141-143 | With events at distinct times the downtime query returns a row exactly for a positive downtime |
| DailyStats.NoOutageNoDowntime | backend/db/daily_stats.sql.go:141-143 | The query's own sum is zero for a monitor that it returns no row for |
| DailyStats.LeftOutWasDownOnlyBeforeKept | backend/db/daily_stats.sql.go:141-143 | Such a monitor was down on that day only in seconds whose down event was pruned |
| Recovery.RecoveryDurationIsOutageLength | backend/store/alerter.go:146-162 | For every up event the reported duration is the length of the maximal interval in state down ending there, exactly when the event that opened it is still stored |
| Recovery.ReminderNamesCurrentOutage | backend/db/alerts.sql.go:111-124 | A reminder is enqueued only while the latest down has no later down, up or resume, and refers to that down exactly when it is still stored |
| Reminders.RemindersKeepCadence | backend/db/alerts.sql.go:125-136 | The n-th reminder of an outage (from 0) is created at least n + 1 cadences after its down event |
| Reminders.ReminderIffDue | backend/db/alerts.sql.go:111-137 | A tick adds a reminder for a monitor exactly when one is due for it |
| Reminders.TickCoversDownMonitors | backend/db/alerts.sql.go:125-136 | After a tick every unmuted monitor with reminders on that is down, and whose down is stored, has an alert created within its last cadence |
| Outbox.RemindInColumns | backend/db/alerts.sql.go:111-137 | The statement over all monitors adds those reminders in order and nothing else |
| Delivery.OutcomesAreBounded | backend/worker/alerter/alerter.go:127-183 | Every alert has at most three recorded outcomes, a pending one at most two, all retries and counted by attempts; it is failed exactly when the last was a give-up; a third try is claimed more than 360 seconds after the first was recorded |
| Delivery.TerminalRowsNeverChange | backend/db/alerts.sql.go:244-304 | A sent or failed row never changes and gets no further outcome until it is pruned with its event |
| AtMostOnce.DeliveredTwiceOnlyIfUnrecorded | backend/store/alerter.go:45-51 | In every run an alert that was delivered is dispatched again only if the outcome of that delivery was not recorded |
| AtMostOnce.RecordedIsFinal | backend/worker/alerter/alerter.go:160-183 | After any recorded outcome but a retry the alert is never dispatched again |
| AtMostOnce.RedeliverableIffUnrecorded | backend/store/alerter.go:45-86 | After a step that delivers an alert some continuation of the run, however late it starts, delivers it again if and only if the outcome was not recorded |
| Delivery.SettledFits | backend/worker/alerter/alerter.go:160-183 | Recording one verdict keeps the row in agreement with the outcomes recorded for it |
| Failures.EveryFailureIsLogged | backend/store/alerter.go:122-141 | In every run the alerts ever failed are as many as the alert_failed events ever written |
| Outbox.LatestDown | backend/db/alerts.sql.go:212-220 | The result is a down event of the monitor within the bound, no other such event is later, and there is one whenever the table holds one |
| Outbox.SettleById | backend/db/alerts.sql.go:244-294 | An outcome changes only the named row, and of it only status, attempts, next attempt and sent time |
| Probes.StreakIsTrailingRun | backend/store/prober.go:149-167 | After any sequential outcomes the fail streak is the length of the trailing failure run and the state is down exactly while that run has reached the threshold |
| Probes.TransitionsAtThreshold | backend/store/prober.go:119-133 | A down event is written exactly where a failure run reaches the threshold, an up event exactly at the success that ends such a run |
| Probes.DownsAreLongRuns | backend/store/prober.go:149-167 | The number of down events is the number of maximal failure runs that reach the threshold |
| Probes.WarningsAreNewExpiries | backend/store/prober.go:193-243 | The expiries warned about are the in-window expiries without consecutive repeats of a whole second, starting from the stored one |
| Probes.StoredKeepsSecond | backend/store/prober.go:207-217 | Storing an expiry with microsecond precision keeps its whole second |
| Draining.PassLowersRank | backend/server/testclock.go:71-84 | Each scheduler pass at a fixed clock lowers the rank of due monitors by at least the number it claims |
| Draining.ThirdPassClaimsNothing | backend/server/testclock.go:18-23 | With at most `limit` due monitors the third pass claims nothing |
| Draining.ClaimIsEarliest | backend/db/monitors.sql.go:14-22 | The claim leaves a due row out only for `limit` rows that are due no later |
| Draining.TestClock.Advance | backend/server/testclock.go:61-85 | A positive advance moves the clock and drains; with fewer than 2250 due monitors no unpaused monitor in up or late has a deadline before the clock afterwards; any other advance changes nothing |
| Selection.TakeEarliest | backend/db/monitors.sql.go:19-20 | ORDER BY and LIMIT: distinct matching rows in key order, none left out earlier than one taken, and all of them when fewer than the limit |
| Sessions.AtMostOneCurrentToken | backend/store/session.go:51-92 | In every interleaving a family has at most one current token, counting a rotation won and not inserted yet |
| Sessions.AtMostOneSuccessor | backend/store/session.go:47-50 | No two tokens were ever rotated from the same token |
| Sessions.DeadStaysDead | backend/store/session.go:41-46 | A family with neither a current token nor a rotation in flight never gets one again |
| Sessions.RevokedFamilyIsDeadIff | backend/db/refresh_tokens.sql.go:79-83 | Revoking a family leaves no current token in it, and ends it exactly when no rotation of it is in flight |
| Sessions.RevokeCanBeOvertaken | backend/store/session.go:74-91 | A concrete run in which a revoked family has a current token again |
| Sessions.ClaimsArePassedOn | backend/store/session.go:74-139 | Whatever can give a family a current token after a statement came from what could before it, or from a new login |
| Sessions.ReplayRevokesFamily | backend/store/session.go:65-69 | In every interleaving the next statement of a request that replayed a rotated token, or logged out, is the revocation of that token's family, unless it crashes; afterwards every token of the family is revoked, none is current, and the family is dead exactly when no rotation of it is in flight |
| Sessions.RevokeStaysPending | backend/store/session.go:65-69 | Until then that revocation stays pending whatever other requests do |
| Sessions.OtherReads | backend/store/session.go:58-72 | Reading an unknown, revoked or expired token for rotation does nothing; reading a current, unexpired one leaves its rotation pending |
| Sessions.ActionsAreLater | backend/store/session.go:51-139 | Every action of the protocol only deletes rows, adds rows under new ids and adds stamps, which is all that the store's methods assume of other requests between their statements |
| Sessions.WonRotationIsThreeActions | backend/store/session.go:65-91 | What a rotation that goes through does is its read, its conditional update and its insert in the protocol, with any actions of others in between |
| Sessions.LostRotationIsThreeActions | backend/store/session.go:74-84 | What one that loses the race does is its read, its conditional update and its revocation |
| Sessions.OtherReadsAreActions | backend/store/session.go:51-72 | What one of a token rotated before does is its read and its revocation, and one of an unusable token only reads |
| Sessions.TokenStore.RotateRefreshToken | backend/store/session.go:51-92 | With other requests interleaved between its statements: an unknown, revoked or expired token is refused and changes nothing; one rotated before is reuse, and every token of its family is revoked; a usable one is rotated exactly when it is still current at the update, with one new current token under an id never used and the old one stamped for as long as it is stored, and else is reuse |
| Sessions.TokenStore.RotateRefreshTokenIfUnrotated | backend/db/refresh_tokens.sql.go:90-95 | The update matches, and returns the row, exactly when the token is neither rotated nor revoked |
| Sessions.TokenStore.RevokeFamilyByToken | backend/store/session.go:98-110 | Logout revokes the whole family of a known token and does nothing for an unknown one |
| Sessions.TokenStore.IssueRefreshToken | backend/store/session.go:112-139 | A new current token of the family with the full lifetime, under the next id, which no token ever had |
| Sessions.TokenStore.CreateRefreshToken | backend/db/refresh_tokens.sql.go:14-18 | One more current token under the next id, which no token ever had |
| Sessions.TokenStore.RevokeRefreshTokenFamily | backend/db/refresh_tokens.sql.go:79-83 | Afterwards no token of the family is current: each one not revoked before is revoked now and otherwise unchanged, and no other token changes |
| Sessions.TokenStore.DeleteExpiredRefreshTokens | backend/db/refresh_tokens.sql.go:48-51 | A token stays exactly when its expiry has not passed, and then unchanged |
| RateLimit.AnyWindowIsBounded | backend/store/ratelimit.go:15-40 | Any interval of one window length holds at most 2 * limit - 1 allowed calls |
| RateLimit.BoundIsReached | backend/store/ratelimit.go:25-40 | For every limit and every window longer than one time unit some calls reach that bound |
| RateLimit.FirstCallsAreAllowed | backend/store/ratelimit.go:31-37 | Between a key's creation and its expiry exactly the first `limit` calls are allowed |
| RateLimit.CounterIsLife | backend/store/ratelimit.go:20-29 | The counter holds the calls since the key's creation and expires one window after it |
| RateLimit.Limiter.Allow | backend/store/ratelimit.go:15-40 | A new or expired key starts at one call for one window, a live one counts on with its expiry, and a call is allowed while the count is within the limit; without a counter store, or when counting fails, it is allowed; a refused call waits for the rest of the key's life; other keys are untouched |
| Pagination.FollowCursors | backend/store/events.go:181-249 | Following cursors while larger ids are inserted between reads returns exactly the rows matching at the first read, once each, in strictly descending id, in floor(n / limit) + 1 pages |
| Pagination.ReadPages | backend/store/events.go:233-249 | The client's loop ends after the last, not full, page with all rows, newest first |
| Pagination.LaterRows | backend/db/events.sql.go:80-88 | A later read below a row's id sees the rows before it at the first read and no other |
| Retention.PruningIsSafe | backend/db/events.sql.go:14-24 | Pruning removes exactly the events older than the cutoff without a pending alert, keeps every pending alert, and every alert kept still has its event |
| Retention.CompletedPrune | backend/store/rollup.go:138-167 | A completed prune leaves a monitor's stored downs and ups a suffix of its log, when none of its old ones has a pending alert |
| Retention.PruneByRow | backend/store/rollup.go:138-189 | A completed prune keeps each check-in and probe result at or after the cutoff as often as it was there, each event but the older ones without a pending alert, and the alerts of no event that went, all in their order |
| Retention.BatchAdvances | backend/store/rollup.go:174-189 | Batches compose: two are one, no event becomes or stops being prunable by them, and their sizes add up |
| Retention.YoungAsOften | backend/db/checkins.sql.go:15-22 | A row at or after the cutoff is kept as often as it occurs, any other not at all |
| Retention.YoungIsExact | backend/db/checkins.sql.go:15-22 | Exactly the rows at or after the cutoff are kept, and the old and the young rows add up |
| Storage.Store.RecordCheckin | backend/store/checkin.go:85-179 | One ping, in columns. An unknown monitor, or a success on a schedule that is not accepted, leaves no trace. A start is only logged. An accepted success takes the monitor up and arms it a period or a cron instant from now, with an up event and alert exactly when it was down; a failure takes it down without a deadline, with a down event and alert unless it was down; auto_resume decides about the pause |
| Acceptance.DeadlineIffAccepted | backend/schedule/errors.go:27-73 | A deadline is computed exactly for schedules with a known zone, grace from 60 to 2592000 and either a period from 60 to 31536000 without a cron expression, or a cron expression of five words without `=` that parses and no period; it is now plus the period or the cron instant, and otherwise the first wrong field is blamed |
| Acceptance.FieldsIffWords | backend/schedule/errors.go:62-64 | The field count of a string is n exactly when it is n words separated by blanks |
| Acceptance.JoinedWordsCount | backend/schedule/errors.go:62-64 | Any n visible words joined by single blanks count n |
| Acceptance.FiveWordsAreAccepted | backend/schedule/errors.go:45-67 | A cron expression of five such words is accepted |
| Acceptance.NightlyIsAccepted | backend/schedule/errors.go:45-67 | `0 3 * * *` is accepted |
| Storage.Store.ApplySuccess | backend/store/checkin.go:132-156 | A success re-arms the deadline or fails on an invalid schedule, and records a recovery exactly when the monitor was down |
| Storage.Store.ApplyFail | backend/store/checkin.go:161-179 | A reported failure takes the monitor down without a deadline and records a down exactly when it was not down |
| Storage.Store.RecordTransition | backend/store/checkin.go:207-221 | One event and one pending alert for it |
| Storage.Store.RecordEvent | backend/store/checkin.go:184-202 | One event and no alert |
| Storage.Store.InsertEvent | backend/db/events.sql.go:46-50 | One more event with the next id |
| Storage.Store.InsertAlert | backend/db/alerts.sql.go:177-181 | One more alert with the next id: pending, no attempts, due at once |
| Storage.Store.CreateMonitor | backend/db/monitors.sql.go:151-167 | One more monitor with its runtime columns at their defaults |
| Storage.Store.EvaluateOne | backend/store/scheduler.go:61-97 | One claimed row takes its step, counted with the event and the alert it wrote |
| Storage.Store.EvaluateDueMonitors | backend/store/scheduler.go:33-97 | The unpaused rows in up or late whose deadline lies before now are claimed, earliest first, and one is left out only for `limit` others due no later. Each claimed row takes one step, to late with its grace added to the deadline or to down without one and with a longer streak, with one event, and one alert when it goes down; every other row and table stays; the counters equal what was written |
| Storage.Store.RecordProbeResult | backend/store/prober.go:92-243 | One probe result, in columns: up without a streak after a success; after a failure one more than the streak the prober saw, and down from the threshold on, two by default, else the state the prober saw; the prober's next probe time; a down or up event with its alert exactly at a confirmed change; a warning with its alert, and the stored expiry, for a certificate that expires within 14 days and not in the second last warned about |
| Effects.ProbeInColumns | backend/store/prober.go:92-243 | The engine's probe change is that one |
| Effects.CheckinAnnounces | backend/store/checkin.go:132-179 | The engine's check-in change announces a recovery or a failure with one event and alert, and nothing else |
| Storage.Store.RecordProbeTransition | backend/store/prober.go:119-133 | The event and alert of a confirmed transition, and which one it was |
| Storage.Store.MaybeWarnTlsExpiry | backend/store/prober.go:193-243 | A warning event with its alert and the stored expiry, or nothing |
| Storage.Store.PauseMonitor | backend/store/events.go:39-43 | Paused from now with one event and no alert, and nothing else changes; an unknown monitor changes nothing |
| Storage.Store.SetMuted | backend/store/events.go:46-57 | Muted or unmuted with one event and no alert, and nothing else changes; an unknown monitor changes nothing |
| Storage.Store.ResumeMonitor | backend/store/events.go:64-109 | From any state: up, unpaused, armed from now, with one resume event and no alert; a schedule that is not accepted, or an unknown monitor, changes nothing |
| Storage.Store.EnqueueDownReminders | backend/db/alerts.sql.go:111-137 | One pending reminder of its latest stored down for exactly the monitors that are down and unmuted, with reminders on, no alert created within the last cadence and a down stored; nothing else changes |
| Storage.Store.ClaimDueAlerts | backend/store/alerter.go:52-86 | Each job is a pending row that is due, with its attempts and its monitor's mute flag, in order of next attempt; no row left out is due earlier than one taken, and with fewer than the limit none is left out; nothing changes |
| Storage.Store.MarkAlertSent | backend/db/alerts.sql.go:258-262 | The row of that id is sent now with one attempt more, its other columns kept; every other row is unchanged |
| Storage.Store.SuppressAlert | backend/db/alerts.sql.go:290-294 | The row of that id is sent without a sent time or an attempt, its other columns kept; every other row is unchanged |
| Storage.Store.RescheduleAlert | backend/db/alerts.sql.go:271-275 | The row of that id has one attempt more and is due at the given time, its status and other columns kept; every other row is unchanged |
| Storage.Store.FailAlert | backend/store/alerter.go:122-141 | The row of that id is failed with one attempt more, one alert_failed event without an alert gives the reason, and nothing else changes |
| Storage.Store.RollupDay | backend/store/rollup.go:46-114 | For the UTC day of the given time each monitor with a check-in, a probe or an outage gets a row: with a probe the numbers of its probes and of the failed ones, else of its check-ins and of those of kind fail, counted over the stored rows of the day, and its downtime; every other row stays; their number is returned. Latency percentiles are left out |
| Storage.Store.MergeStats | backend/store/rollup.go:53-96 | The three queries merged by monitor, without latency percentiles |
| Storage.Store.DeleteOldEventsBatch | backend/db/events.sql.go:14-24 | One batch removes as many prunable events as the limit allows, with their alerts, and returns their number |
| Storage.Store.DeleteOldCheckinsBatch | backend/db/checkins.sql.go:15-22 | One batch removes as many old check-ins as the limit allows, keeps the young ones in order and of the old ones only rows of the table, and returns the number removed |
| Storage.Store.DeleteOldProbeResultsBatch | backend/db/probe_results.sql.go:14-21 | The same for probe results |
| Storage.Store.DrainCheckins | backend/store/rollup.go:174-189 | The loop ends with exactly the check-ins at or after the cutoff and returns the number removed |
| Storage.Store.DrainProbeResults | backend/store/rollup.go:174-189 | The same for probe results |
| Storage.Store.DrainEvents | backend/store/rollup.go:174-189 | The loop ends without the prunable events and their alerts and returns the number of events removed |
| Storage.Store.PruneOldData | backend/store/rollup.go:138-167 | The batch loops terminate, leave what `Retention.PruneByRow` says, and return the numbers of rows removed |
| Dispatching.Alerter.DispatchJob | backend/worker/alerter/alerter.go:127-183 | In columns of the row of that id: muted, sent without an attempt whatever the send gives; delivered, sent now; a transient refusal with fewer than two attempts before, pending and due after 60 or 300 seconds; any other result, failed, with one alert_failed event naming the missing channel, the failed rendering or the refusal. Every other row is unchanged |
| Dispatching.Alerter.DispatchJobs | backend/worker/alerter/alerter.go:116-121 | The claimed jobs are dispatched in order |
| Dispatching.Alerter.Fail | backend/worker/alerter/alerter.go:186-190 | The row of that id is failed with one attempt more and one alert_failed event gives the reason |
| Dispatching.Alerter.BackoffDelay | backend/worker/alerter/alerter.go:247-253 | The delay is 60 * 5^attempts seconds: 60, 300, 1500 |
| Dispatching.Alerter.Tick | backend/worker/alerter/alerter.go:102-123 | A tick enqueues reminders, claims at most 100 due alerts and records the outcome of each job in order |
| Refinement.SchedulerTickIsEngine | backend/store/scheduler.go:33-54 | What the store's scheduler transaction does is a claim and its commit in the engine, and the claim is one the no-starvation theorem admits |
| Refinement.AlerterTickIsEngine | backend/worker/alerter/alerter.go:102-123 | What the alerter's tick does is reminding, claiming and dispatching in the engine |
| Refinement.BatchIsEngine | backend/db/events.sql.go:14-24 | Any set of prunable events is a prune step of the engine |
| Ticks.TickInColumns | backend/store/scheduler.go:61-97 | Evaluating any distinct due rows changes those rows by one step each, writes one event for each in order, and one pending alert for each that was late |
| Ticks.ClaimInColumns | backend/db/monitors.sql.go:14-22 | The claim's condition, order and limit, in columns |
| Storage.Store.ClaimDueMonitors | backend/db/monitors.sql.go:14-22 | Distinct unpaused rows in up or late whose deadline lies before now, by deadline; one is left out only for `limit` others due no later |
| Ticks.EvaluateDbIsEngine | backend/store/scheduler.go:33-97 | The scheduler transaction on the tables is the engine's commit |
| Examples.RollupCanExceedItsWindow | backend/db/monitors.sql.go:687-695 | A concrete run with a resumed outage in which the rollup reports 160 seconds in a window of 100, of which 80 were down |
| Examples.PrunedOutageIsMissed | backend/db/daily_stats.sql.go:105-144 | A concrete run in which a monitor's down event is pruned while the outage lasts, and the rollup returns no row for a window that was down throughout |
| Examples.StaleProbeRepeatsDown | backend/store/prober.go:15-21 | A concrete run in which two probes from one snapshot write two adjacent downs |
| Examples.UnrecordedSendIsRepeated | backend/store/alerter.go:45-51 | A concrete run in which a delivered alert is claimed and delivered again |

## Left out

- Monitor deletion, and updates of a monitor's configuration: rows keep the configuration they were created with, which need not validate.
- Users, ownership checks and request parsing: an unknown monitor stands for a foreign or malformed id.
- Cron matching, time zones and daylight saving: functions of `Schedule.Calendar`. The library's zero time for a cron expression that never matches again is excluded by `Forward()`.
- 32-bit counters and intervals: integers are unbounded.
- Rendering of mails, message wording, subjects and links: an event carries a message tag, and a rendering failure is one of the send results.
- The latency series: statistics of the database.
- The feeds of check-ins, probe results and all of a user's events: they page over ids in the same way as the monitor feed that is modelled.
- The base64 text of cursors: a cursor is the id it encodes, and malformed cursors are not modelled.
- More than one alerter: outbox and reminder results need one, because the alert claim does not change the row.
- Claiming of due probes and the probe itself: a probe outcome, with the snapshot it used, is an input.
- The zero value of a probe outcome's clock, which the code replaces by the current time: the clock is always given.
- Row locks in the class `Storage.Store`: it runs one transaction at a time; interleaving, locks, aborts and crashes are steps of the engine.
- Context cancellation and database errors, except rollback: an abort stands for them in the engine.
- Storage.Store.DeleteOldCheckinsBatch: does not say which old rows go first, because the query does not either.
- Storage.Store.DeleteOldProbeResultsBatch: the same.
- Storage.Store.RollupDay: does not set the latency percentile columns, because they are statistics computed by the database.
- Storage.Store.MergeStats: does not merge the probe query's latency percentiles, for the same reason.
- Pruning concurrent with inserts in `Storage.Store.PruneOldData`: each batch is a step of the engine, where other steps come in between.
- The prober and alerter passes that follow the drain loop of the time-warp endpoint.
- The liveness of the workers' timers: a run is any finite sequence of steps.
- Token secrets and their hashes: a token is named by its id, and family ids are fresh at each login.
