# StreaX streak and goal-accounting engine, in Dafny

StreaX is a browser productivity tracker. Each calendar day has a **daily log** with:

- a goal in minutes, which is yesterday's productive minutes or the user's daily commitment, whichever is larger;
- a carried **backlog** of minutes missed on earlier days;
- the focus sessions logged that day.

One **streak ledger** serves every day. It holds:

- the current and longest run of qualifying days and the number of days counted;
- the spendable **streak savers**;
- the **backlog-saver** minutes.

Reaching 2, 4, 6 or 8 productive hours in a day unlocks 15, 35, 65 or 105 minutes of free time.

This project models the engine that keeps those numbers, as the code does it:

- `types.dfy` holds the document's record shapes and the reward table. Daily logs and the document are classes because the code updates them in place. The ledger, the profile and sessions are values.
- `streak.dfy`:
  - The free-time scan, proved equal to "the best tier met" and monotone.
  - The goal and backlog helpers.
  - The streak state machine, `NextStreak`, and the method `UpdateStreakStatus` that performs it in place. It is proved to keep `current <= longest <= total` over any sequence of evaluations.
  - The two saver withdrawals.
  - The next-milestone projection, proved to name the nearest award day.
- `storage.dfy`:
  - The default document.
  - The lazy creation of today's log: goal, carried backlog, and a +15 grant capped at 450.
  - The version guard on restoring a backup.
- `notifications.dfy` covers the in-app notification list. Entries are added newest first, the list is capped at 50, entries are marked read one at a time or all at once, and unread entries are counted.
- `formatters.dfy` has `formatMinutes` and `pluralize`. A reader for the minute format proves that rendering loses no information for every non-negative minute count.
- `dashboard.dfy` has the dashboard's two saver handlers and the predicates that decide which saver buttons are offered.
- `pomodoro.dfy` models the focus timer page as a class:
  - The page's state variables are its fields.
  - It follows the idle / focus / break / paused phase machine.
  - It logs sessions into today's log.
  - It restores a persisted timer snapshot. `RestoredPausedBreakResumesAsFocus` shows a paused break coming back as focus after a reload.
  - `RunFullSession` shows that one session run to the end appends exactly one session and credits its focus minutes.
- `jstext.dfy` has the JavaScript built-ins the code relies on: `${n}` for whole numbers and `String.prototype.trim`.
- `wrappers.dfy` has `Option`.

The model keeps these behaviours of the code as written:

- The streak is re-evaluated after every session and every saver use, with no per-day guard. Two evaluations of one qualifying day count it twice (`Streak.RepeatedEvaluationCountsTwice`).
- The daily +15 grant truncates the backlog-saver balance to 450. The 30-day +60 bonus is not capped (`Streak.MonthlyBonusBypassesCap`).
- `useBacklogSavers` (lib/streak.ts) lowers the backlog and never credits productive minutes. It has no caller in the code.
- The dashboard's backlog handler credits productive minutes and never lowers the backlog.
- The dashboard's streak-saver handler does not check whether a saver was already used today. Only the button predicate does (`Dashboard.CanUseStreakSaver`, `Dashboard.OfferedStreakSaverIsSpendable`).
- The "goal achieved" notification is added after every session once the goal is met, not only the first time.
- `completeSession` clears neither the paused phase nor the timer's end instant.
- The timer restore on page load does not restore the paused phase or the end instant. A paused break that is restored therefore resumes as focus when the session has focus minutes (`Pomodoro.ResumePhase`, `Pomodoro.RestoredPausedBreakResumesAsFocus`).
- Stopping while a break is paused computes partial minutes from the focus length of the preset.

Streak evaluation is therefore not idempotent: re-evaluating a qualifying day counts it again (`Streak.RepeatedEvaluationCountsTwice`). The 30-day milestone bonus can take the backlog-saver balance past the 450 cap (`Streak.MonthlyBonusBypassesCap`).

## Model

| member | source | states |
|---|---|---|
| Types.RewardTiersWellFormed | types/index.ts:67-72 | the table has four tiers at 2, 4, 6 and 8 hours; thresholds and cumulative rewards strictly ascend; each cumulative reward is the previous one plus the tier's own increment |
| Types.DailyLog.constructor | lib/storage.ts:154-165 | a new log keeps the given date, goal and backlog, with no sessions, zero minutes and counters, no saver used and no notes |
| Types.AppData.constructor | types/index.ts:46-52 | the document holds the given version, profile, logs, ledger and stamp, with no notification list |
| Streak.CalculateFreeTimeRewards | lib/streak.ts:7-19 | the loop over the tiers returns the cumulative reward of the last tier met, 0 when none is |
| Streak.LastMetIsHighestMet | lib/streak.ts:12-16 | over ascending tiers, the last tier met has the largest reward of all tiers met, and the result is 0 or the reward of a tier that is met |
| Streak.LastMetMonotone | lib/streak.ts:12-16 | over ascending tiers, more productive minutes never give a smaller reward |
| Streak.FreeTimeRewardMonotone | lib/streak.ts:7-19 | the free-time reward is non-decreasing in productive minutes |
| Streak.FreeTimeRewardTable | lib/streak.ts:7-19 | the reward is 0 below 120 minutes, then 15, 35, 65 at 120, 240, 360, and 105 from 480 on; it is always one of {0, 15, 35, 65, 105} |
| Streak.CalculateDailyGoal | lib/streak.ts:22-32 | the commitment with no yesterday log; otherwise one of yesterday's minutes and the commitment, and at least both |
| Streak.CalculateBacklog | lib/streak.ts:40-48 | 0 exactly when the goal is met; otherwise the backlog and the productive minutes add up to the goal |
| Streak.IsGoalMet | lib/streak.ts:35-37 | the goal is met exactly when CalculateBacklog leaves no shortfall |
| Streak.NextStreak | lib/streak.ts:57-81 | one evaluation keeps current <= longest <= total and never lowers the longest run, the day count or either saver balance |
| Streak.DayQualifies | lib/streak.ts:55-57 | a day counts exactly when it has no shortfall against its goal or a streak saver covers it |
| Streak.UpdateStreakStatus | lib/streak.ts:51-82 | the ledger becomes NextStreak of the old ledger, for whether the day met its goal or used a saver |
| Streak.QualifyingDayStep | lib/streak.ts:57-77 | a qualifying day adds 1 to the run and the day count; the longest run becomes the larger of old longest and new run; a multiple of 7 pays +1 saver and records the date; a multiple of 30 pays +2 savers and +60 minutes |
| Streak.BrokenDayStep | lib/streak.ts:78-81 | a day that does not qualify sets the run to 0 and changes nothing else |
| Streak.MonthlyBonusBypassesCap | lib/streak.ts:74-77 | from a full 450-minute balance, the 30th qualifying day takes the balance to 510 |
| Streak.RepeatedEvaluationCountsTwice | lib/streak.ts:57-60 | evaluating the same qualifying day twice adds 2 to the run and to the day count |
| Streak.ReplayCounts | lib/streak.ts:51-82 | after any sequence of evaluations the day count rose by the number of qualifying ones; the run is the trailing qualifying run, added to the old run when none failed; the ledger invariant is kept |
| Streak.UseStreakSaver | lib/streak.ts:85-97 | fails with nothing changed when no saver is left; otherwise marks the day saved and leaves the ledger at NextStreak of the balance less one, the qualifying branch |
| Streak.UseBacklogSavers | lib/streak.ts:100-116 | succeeds exactly when the balance covers the request, and changes nothing on failure; on success the balance drops by the request, today's used minutes rise by it, and the backlog becomes max(0, backlog - request); productive minutes never change |
| Streak.GetNextMilestone | lib/streak.ts:119-140 | a weekly answer is 1..7 days away and lands on a multiple of 7; a monthly one is 1..30 days away and lands on a multiple of 30 |
| Streak.NextMilestoneIsNearest | lib/streak.ts:124-139 | the reported day pays an award, no streak length in between does, and a monthly answer is never also a weekly day, so ties go to weekly |
| Storage.GetDefaultAppData | lib/storage.ts:9-23 | a fresh document at version "1.0.0" with the profile, no logs, an all-zero ledger and the given stamp |
| Storage.DefaultLedgerIsValid | lib/storage.ts:14-20 | the all-zero ledger satisfies current <= longest <= total |
| Storage.GrantDailyBacklogSaver | lib/storage.ts:168-176 | one grant gives the old balance + 15 or the cap 450, and never more than either |
| Storage.GrantsStayCapped | lib/storage.ts:168-176 | after one or more daily grants the balance is at most 450; from a balance within the cap it is min(balance + 15 * days, 450) |
| Storage.LogOrNull | lib/storage.ts:134 | the log stored for the date, or null exactly when there is none |
| Storage.GetTodayLog | lib/storage.ts:128-180 | an existing log is returned with nothing changed; otherwise a fresh log is inserted under today only, with the goal from CalculateDailyGoal, the backlog carried plus yesterday's shortfall, and +15 granted and capped only when yesterday has a log |
| Storage.Store.constructor | lib/storage.ts:26-37 | an empty store holds no serialised document |
| Storage.Serialize | lib/storage.ts:45 | the serialised document has exactly the document's dates, each day's minutes and sessions, and its ledger, stamp and notifications, as values detached from the objects |
| Storage.SaveAppData | lib/storage.ts:40-49 | the document is stamped with the given time and its serialised form becomes the stored one |
| Storage.LoadWithoutSaveIsNotStored | lib/storage.ts:40-49 | a log created after the last save is in the live document but not in the store, and the stored ledger is the one saved |
| Storage.RestoreBackup | lib/storage.ts:88-94 | a backup of any version but "1.0.0" is rejected with "Incompatible backup version", and nothing is stored or stamped; otherwise its document is saved |
| InAppNotifications.Prepend | lib/in-app-notifications.ts:38-43 | the new entry is first, the old entries follow in order, and the length is min(old + 1, 50) |
| InAppNotifications.AddNotification | lib/in-app-notifications.ts:17-44 | the list, created when absent, becomes Prepend of the old list with a new unread notification |
| InAppNotifications.MarkFirstRead | lib/in-app-notifications.ts:46-51 | marking by id keeps the list's length |
| InAppNotifications.MarkFirstReadAt | lib/in-app-notifications.ts:46-51 | only the first entry with the id is marked read; with no such entry the list is unchanged |
| InAppNotifications.MarkNotificationRead | lib/in-app-notifications.ts:46-51 | the search loop leaves the list equal to MarkFirstRead of the old one, and an absent list stays absent |
| InAppNotifications.MarkAll | lib/in-app-notifications.ts:53-57 | every entry is the old one with read set, in the same order |
| InAppNotifications.MarkAllNotificationsRead | lib/in-app-notifications.ts:53-57 | the loop leaves the list equal to MarkAll of the old one, and an absent list stays absent |
| InAppNotifications.UnreadCount | lib/in-app-notifications.ts:60 | at most the list's length, and 0 exactly when every entry is read |
| InAppNotifications.GetUnreadCount | lib/in-app-notifications.ts:59-61 | 0 for an absent list, otherwise at most its length |
| InAppNotifications.UnreadCountOfMarkAll | lib/in-app-notifications.ts:53-61 | after marking all read, the unread count is 0 |
| InAppNotifications.FirstWithIdUnread | lib/in-app-notifications.ts:47 | whether the first entry with the id is unread, as 0 or 1, never more than the unread count |
| InAppNotifications.UnreadCountOfMarkFirstRead | lib/in-app-notifications.ts:46-61 | marking by id lowers the unread count by one exactly when the first entry with that id was unread |
| InAppNotifications.UnreadCountOfPrepend | lib/in-app-notifications.ts:38-43 | a new unread entry is counted, and below the cap it adds exactly one to the unread count |
| InAppNotifications.SliceTo | lib/in-app-notifications.ts:65 | `slice(0, limit)` is a prefix of min(limit, length) entries, and a negative limit counts back from the end |
| InAppNotifications.GetNotifications | lib/in-app-notifications.ts:63-66 | a prefix of the list; the whole list with no limit or a zero limit; min(limit, length) entries for a positive limit |
| Formatters.JsRemainder | lib/formatters.ts:8 | JavaScript's `%`: Dafny's remainder for a non-negative dividend, and the remainder with the dividend's sign for a negative one |
| Formatters.FormatMinutes | lib/formatters.ts:4-14 | "0m" for 0, "<m>m" below an hour, "<h>h" on a whole hour, "<h>h <m>m" otherwise |
| Formatters.ParseMinutesOnly | lib/formatters.ts:10 | "<m>m" reads back as m |
| Formatters.ParseHoursOnly | lib/formatters.ts:11 | "<h>h" reads back as 60 * h |
| Formatters.ParseHoursAndMinutes | lib/formatters.ts:13 | "<h>h <m>m" reads back as 60 * h + m |
| Formatters.FormatMinutesRoundTrip | lib/formatters.ts:4-14 | every non-negative minute count reads back from its rendering |
| Formatters.Pluralize | lib/formatters.ts:111-114 | "1 <singular>" for a count of 1; otherwise "<count> <plural>", or "<count> <singular>s" when the plural is absent or empty |
| JsText.NatToString | lib/formatters.ts:10 | a whole number renders as one or more decimal digits with no leading zero |
| JsText.IntToString | lib/formatters.ts:112-113 | a negative number renders as "-" and the digits of its magnitude |
| JsText.DigitsValueOfNatToString | lib/formatters.ts:10-13 | the digits rendered for n denote n |
| JsText.TrimEmptyIffAllWhitespace | app/pomodoro/page.tsx:289 | a task name trims to "" exactly when every character is white space |
| JsText.TrimStartHead | app/pomodoro/page.tsx:352 | trimming the start leaves a suffix that starts with no white space, and everything removed is white space |
| JsText.TrimEndTail | app/pomodoro/page.tsx:352 | trimming the end leaves a prefix that ends with no white space, and everything removed is white space |
| JsText.TrimIsWhitespaceStripped | app/pomodoro/page.tsx:289 | `Trim` (`taskName.trim()`) returns a contiguous piece of the input with only white space before and after it, and the piece neither starts nor ends with white space |
| Dashboard.Remaining | app/page.tsx:120 | positive exactly when the goal is unmet, and then exactly the goal less the productive minutes; never more than the goal, and 0 once the goal is met |
| Dashboard.CanUseStreakSaver | app/page.tsx:122 | the streak-saver button is offered only on a day whose goal is unmet, with a saver in hand and none used yet |
| Dashboard.CanUseBacklogSaver | app/page.tsx:123 | the backlog-saver button is offered exactly when the goal is unmet and the balance is positive |
| Dashboard.BacklogToUse | app/page.tsx:85-86 | no more than the request, the deficit or the balance, and equal to one of them: their minimum |
| Dashboard.OfferedBacklogSaverMakesProgress | app/page.tsx:85-90 | when the button is offered, a positive request credits a positive amount and never takes today past its goal |
| Dashboard.OfferedStreakSaverIsSpendable | app/page.tsx:119-122 | the streak-saver button is offered exactly when a saver is in hand and the day would not otherwise qualify |
| Dashboard.HandleUseStreakSaver | app/page.tsx:48-74 | with no saver nothing changes; otherwise the day is marked saved, the ledger is NextStreak of the balance less one on a qualifying day, a success notification is added, and the document is stamped and saved to the store |
| Dashboard.HandleUseBacklogSaver | app/page.tsx:76-108 | a balance below the request changes nothing; otherwise the clamped amount is added to productive and used minutes, the free time is recomputed, the streak re-evaluated, a notification added, and the document stamped and saved; the backlog never changes; a refusal saves nothing |
| Pomodoro.CeilSeconds | app/pomodoro/page.tsx:117 | `Math.ceil(ms / 1000)`: the least whole number of seconds covering ms |
| Pomodoro.RemainingSeconds | app/pomodoro/page.tsx:117-118 | positive exactly when the end lies ahead, and then the ceiling of the seconds left |
| Pomodoro.LoadTimerState | app/pomodoro/page.tsx:101-132 | a snapshot older than 24 h is dropped; an idle or paused one is kept as is; a running one changes only its remaining time, which comes from the end instant or from the elapsed whole seconds, and is dropped when nothing is left |
| Pomodoro.ResumePhase | app/pomodoro/page.tsx:319 | the paused phase when one was kept; otherwise focus exactly when the session has focus minutes, else break |
| Pomodoro.SessionNotice | app/pomodoro/page.tsx:371-385 | an unread notification with the given id and time, informational for a partial session and a success otherwise |
| Pomodoro.GoalNotice | app/pomodoro/page.tsx:388-395 | an unread success notification titled "Daily Goal Achieved!" with the given id and time |
| Pomodoro.CompletionNotices | app/pomodoro/page.tsx:370-395 | the session notice is added, and when today's total reaches the goal the goal notice goes in front of it; the list stays within 50 |
| Pomodoro.RecordSession | app/pomodoro/page.tsx:360-395 | the session is appended, its minutes credited, free time recomputed, the streak re-evaluated and the notices added; every other field of the document and the log is kept |
| Pomodoro.PomodoroPage.constructor | app/pomodoro/page.tsx:49-65 | the page opens idle on the first preset with an empty task, a cleared timer and the dialog closed, on the given document, log and store |
| Pomodoro.PomodoroPage.SetTaskName | app/pomodoro/page.tsx:483 | the task name becomes the typed text |
| Pomodoro.PomodoroPage.SelectPreset | app/pomodoro/page.tsx:497 | the chosen preset becomes the selected one |
| Pomodoro.PomodoroPage.StartSession | app/pomodoro/page.tsx:288-305 | refuses, changing nothing, exactly when the task name is blank once trimmed; otherwise focus starts with the preset's seconds, its minutes as the focus total, the start instant and the end instant |
| Pomodoro.PomodoroPage.PauseSession | app/pomodoro/page.tsx:307-314 | a running phase pauses, keeping its phase and remaining time and clearing the end instant; any other phase is left as is |
| Pomodoro.PomodoroPage.ResumeSession | app/pomodoro/page.tsx:316-323 | only a paused timer resumes, with the kept time, the ResumePhase phase and a new end instant |
| Pomodoro.PomodoroPage.CompleteSession | app/pomodoro/page.tsx:339-409 | nothing is logged without a document, a log and a start; with no minutes worked only the phase and the dialog reset; otherwise exactly one session is logged, the document is stamped and saved, and the page resets |
| Pomodoro.PomodoroPage.LogSession | app/pomodoro/page.tsx:350-408 | the trimmed task's session, with the worked minutes and completed = not partial, is appended and credited, the notices added, the document stamped and saved, and the page made idle with the task name cleared |
| Pomodoro.PomodoroPage.ResetAfterLogging | app/pomodoro/page.tsx:402-408 | idle, task, timer, start and focus total cleared, dialog closed |
| Pomodoro.PomodoroPage.HandlePhaseComplete | app/pomodoro/page.tsx:255-286 | focus gives way to a break of the preset's length with nothing logged; a finished break goes idle and completes the full session; any other phase changes nothing |
| Pomodoro.PomodoroPage.StopSession | app/pomodoro/page.tsx:325-337 | during a break the full session is completed; otherwise the end dialog opens with the whole minutes of focus done, and nothing is logged |
| Pomodoro.PomodoroPage.DiscardPartial | app/pomodoro/page.tsx:634-638 | back to idle with the dialog closed and the task name cleared |
| Pomodoro.PomodoroPage.CancelEndDialog | app/pomodoro/page.tsx:628 | the dialog closes |
| Pomodoro.PomodoroPage.RestoreTimerState | app/pomodoro/page.tsx:162-172 | a snapshot that survives LoadTimerState sets the phase, times, task, preset and start; one that does not changes nothing |
| Pomodoro.PauseThenResume | app/pomodoro/page.tsx:307-323 | pausing a running timer and resuming it gives the same phase and remaining time, with a new end instant |
| Pomodoro.RunFullSession | app/pomodoro/page.tsx:255-305 | start, end of focus and end of break append exactly one completed session of the preset's focus length, credit those minutes, and save the stamped document |
| Pomodoro.RestoredPausedBreakResumesAsFocus | app/pomodoro/page.tsx:164-172 | a paused break restored from a fresh snapshot with focus minutes resumes as focus with the paused time, because the paused phase is not restored |

## Left out

- Storage I/O is not modelled. This covers reading and writing the browser's storage, JSON parsing, the text form of the serialisation, and the backup download. The store is a slot holding the value copy of the last saved document (`Storage.Serialize`), and failures to read or write it are not modelled.
- Clocks and random ids are not modelled. Today's and yesterday's date keys, the current instant (milliseconds) and notification ids are parameters.
- ISO time strings are not modelled. Session start and end instants and notification timestamps are whole milliseconds. The document's `lastUpdated` stamp is a string the caller passes to each handler that saves.
- React state copies are not modelled. After each handler the pages hand React shallow copies of the document and the log. From then on the page's `todayLog` is no longer the object stored in the document, so a later action would credit a log that is not saved. The model keeps one shared log object.
- The pages' "not loaded" guard is not modelled. The dashboard handlers take a loaded document and log. The timer page keeps them nullable because `completeSession` tests them.
- The one-second timer tick (app/pomodoro/page.tsx:182-219) is left out because it is a timer. Its use of the end instant is captured by `Pomodoro.RemainingSeconds`, and its call to the phase-complete handler by `Pomodoro.PomodoroPage.HandlePhaseComplete`.
- These browser services are not modelled: sounds, browser notifications and their permission requests, alerts, the timer snapshot's save and clear, and navigation.
- Floating-point helpers are not modelled: `getGoalProgress`, the dashboard's progress percentage, `formatHours` and `formatPercent`.
- Date and locale formatting are not modelled: `formatDate`, `formatTime`, `getDayOfWeek` and the week, month and range helpers.
- `Pomodoro.PomodoroPage.RestoreTimerState` requires the snapshot's preset index to be in range. The code would index past the preset table for a corrupted snapshot.
- `Streak.UseBacklogSavers` takes a whole, non-negative request. The code accepts any number, but it has no caller.
- `Dashboard.HandleUseBacklogSaver` takes a whole, non-negative request. The page only offers 15, 30, 60 or the smaller of the remaining minutes and the balance.
- `JsText.NatToString` always prints plain decimal digits. JavaScript switches to exponent form from 1e21 ("1e+21"), far beyond any minute count.
