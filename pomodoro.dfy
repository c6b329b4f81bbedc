/**
 * The focus timer page (app/pomodoro/page.tsx): a phase machine over idle, focus, break and
 * paused, the session logging that credits today's log, and the restore of a persisted timer
 * snapshot. The page's state variables are the fields of `PomodoroPage`; the clock is the `now`
 * parameter (milliseconds), and notification ids and the save's time stamp are parameters.
 */
module Pomodoro {
  import opened Wrappers
  import opened Types
  import opened JsText
  import opened Streak
  import opened Formatters
  import opened InAppNotifications
  import opened Storage

  datatype Preset = Preset(name: string, focusMinutes: nat, breakMinutes: nat)

  const Presets: seq<Preset> := [
    Preset("Test", 1, 1),
    Preset("Classic (25/5)", 25, 5),
    Preset("Extended (50/10)", 50, 10),
    Preset("Long (120/20)", 120, 20),
    Preset("Ultra (180/30)", 180, 30)
  ]

  datatype Phase = Idle | Focus | Break | Paused

  /** A snapshot older than this many milliseconds is not restored. */
  const MaxStateAge: int := 24 * 60 * 60 * 1000

  predicate IsRunning(phase: Phase) {
    phase == Focus || phase == Break
  }

  /** A stored end instant counts only when present and non-zero (JavaScript truthiness). */
  predicate HasEndTime(endTime: Option<int>) {
    endTime.Some? && endTime.value != 0
  }

  /** The timer snapshot kept between page loads; `sessionStartTime` is an instant in milliseconds. */
  datatype PersistedTimerState = PersistedTimerState(
    phase: Phase,
    timeRemaining: int,
    totalFocusTime: int,
    taskName: string,
    selectedPreset: nat,
    sessionStartTime: Option<int>,
    pausedTime: int,
    lastUpdate: int,
    pausedPhase: Option<Phase>,
    endTime: Option<int>)

  /** `Math.ceil(ms / 1000)`: the least whole number of seconds covering `ms` milliseconds. */
  function CeilSeconds(ms: int): (r: int)
    ensures (r - 1) * 1000 < ms <= r * 1000
  {
    -((-ms) / 1000)
  }

  /** The whole seconds left until `endTime`, never negative. */
  function RemainingSeconds(endTime: int, now: int): (r: nat)
    ensures r > 0 <==> endTime > now
    ensures r > 0 ==> (r - 1) * 1000 < endTime - now <= r * 1000
  {
    var c := CeilSeconds(endTime - now);
    if c > 0 then c else 0
  }

  /**
   * loadTimerState after the snapshot has been read: a stale snapshot is dropped; a running one
   * has its remaining time recomputed, from the end instant when there is one and from the
   * elapsed whole seconds otherwise, and is dropped when no time is left.
   */
  function LoadTimerState(saved: Option<PersistedTimerState>, now: int): (r: Option<PersistedTimerState>)
    ensures saved.None? ==> r.None?
    ensures saved.Some? && now - saved.value.lastUpdate > MaxStateAge ==> r.None?
    ensures r.Some? ==> saved.Some? && r.value == saved.value.(timeRemaining := r.value.timeRemaining)
    ensures r.Some? && IsRunning(r.value.phase) ==> r.value.timeRemaining > 0
    ensures saved.Some? && now - saved.value.lastUpdate <= MaxStateAge && !IsRunning(saved.value.phase) ==>
              r == saved
    ensures saved.Some? && now - saved.value.lastUpdate <= MaxStateAge && IsRunning(saved.value.phase) &&
            HasEndTime(saved.value.endTime) ==>
              && (r.Some? <==> saved.value.endTime.value > now)
              && (r.Some? ==> (r.value.timeRemaining - 1) * 1000 < saved.value.endTime.value - now
                                <= r.value.timeRemaining * 1000)
    ensures saved.Some? && now - saved.value.lastUpdate <= MaxStateAge && IsRunning(saved.value.phase) &&
            !HasEndTime(saved.value.endTime) ==>
              && (r.Some? <==> now - saved.value.lastUpdate < saved.value.timeRemaining * 1000)
              && (r.Some? ==> r.value.timeRemaining == saved.value.timeRemaining - (now - saved.value.lastUpdate) / 1000)
  {
    match saved
    case None => None
    case Some(state) =>
      var age := now - state.lastUpdate;
      if age > MaxStateAge then None
      else if !IsRunning(state.phase) then Some(state)
      else
        var remaining :=
          if HasEndTime(state.endTime) then RemainingSeconds(state.endTime.value, now)
          else var left := state.timeRemaining - age / 1000; if left > 0 then left else 0;
        if remaining <= 0 then None else Some(state.(timeRemaining := remaining))
  }

  /** The phase a resume returns to: the paused one, or a guess from the session's focus length. */
  function ResumePhase(pausedPhase: Option<Phase>, totalFocusTime: int): (p: Phase)
    ensures pausedPhase.Some? ==> p == pausedPhase.value
    ensures pausedPhase.None? ==> IsRunning(p)
    ensures pausedPhase.None? ==> (p == Focus <==> totalFocusTime > 0)
  {
    if pausedPhase.Some? then pausedPhase.value else if totalFocusTime > 0 then Focus else Break
  }

  const SessionLoggedTitle: string := "Session Logged"
  const SessionCompleteTitle: string := "Session Complete! \U{1F389}"
  const GoalAchievedTitle: string := "Daily Goal Achieved! \U{2728}"

  /** The notification for a logged session: informational when partial, a success otherwise. */
  function SessionNotice(partial: bool, worked: nat, task: string, id: string, now: int): (n: Notification)
    ensures !n.read && n.id == id && n.timestamp == now && n.icon == None
    ensures n.kind == (if partial then Info else Success)
  {
    if partial then
      Notification(id, Info, SessionLoggedTitle,
                   "Logged " + IntToString(worked) + " minutes for: " + task, now, false, None)
    else
      Notification(id, Success, SessionCompleteTitle,
                   "Completed " + IntToString(worked) + " minutes on: " + task, now, false, None)
  }

  /** The success notification for a day whose total has reached its goal. */
  function GoalNotice(productiveMinutes: nat, id: string, now: int): (n: Notification)
    ensures !n.read && n.id == id && n.timestamp == now && n.icon == None
    ensures n.kind == Success && n.title == GoalAchievedTitle
  {
    Notification(id, Success, GoalAchievedTitle,
                 "You've completed " + FormatMinutes(productiveMinutes) + " today!", now, false, None)
  }

  /**
   * The notification list after a session is logged: the session notice, then, whenever the day's
   * total has reached the goal, the goal notice in front of it.
   */
  function CompletionNotices(list: seq<Notification>, session: Notification, goal: Notification,
                             productiveMinutes: nat, goalMinutes: nat): (r: seq<Notification>)
    ensures |r| == if |list| + (if productiveMinutes >= goalMinutes then 2 else 1) > MaxNotifications
                   then MaxNotifications else |list| + (if productiveMinutes >= goalMinutes then 2 else 1)
    ensures productiveMinutes >= goalMinutes ==> r[0] == goal && r[1] == session
    ensures productiveMinutes < goalMinutes ==> r[0] == session
  {
    var withSession := Prepend(list, session);
    if productiveMinutes >= goalMinutes then Prepend(withSession, goal) else withSession
  }

  /** The document fields that session logging and its save do not write are as they were. */
  twostate predicate DocumentFieldsKept(data: AppData)
    reads data
  {
    && data.version == old(data.version) && data.profile == old(data.profile)
    && data.dailyLogs == old(data.dailyLogs)
  }

  /** The log fields that session logging does not write are as they were. */
  twostate predicate LogFieldsKept(log: DailyLog)
    reads log
  {
    && log.backlogMinutes == old(log.backlogMinutes)
    && log.streakSaverUsed == old(log.streakSaverUsed)
    && log.backlogSaversEarned == old(log.backlogSaversEarned)
    && log.backlogSaversUsed == old(log.backlogSaversUsed)
    && log.freeTimeUsed == old(log.freeTimeUsed)
    && log.notes == old(log.notes)
  }

  /**
   * The ledger half of completeSession: append the session, credit its minutes, recompute the
   * free time, re-evaluate the streak, and add the session notice and, on a met goal, the goal notice.
   */
  method RecordSession(data: AppData, log: DailyLog, session: PomodoroSession, partial: bool,
                       sessionNoteId: string, goalNoteId: string, now: int)
    modifies data`streakData, data`notifications
    modifies log`sessions, log`productiveMinutes, log`freeTimeEarned
    ensures DocumentFieldsKept(data) && LogFieldsKept(log)
    ensures log.sessions == old(log.sessions) + [session]
    ensures log.productiveMinutes == old(log.productiveMinutes) + session.durationMinutes
    ensures log.freeTimeEarned == FreeTimeReward(log.productiveMinutes)
    ensures data.streakData == NextStreak(old(data.streakData), DayQualifies(log), log.date)
    ensures data.notifications ==
              Some(CompletionNotices(ListOf(old(data.notifications)),
                                     SessionNotice(partial, session.durationMinutes, session.taskName, sessionNoteId, now),
                                     GoalNotice(log.productiveMinutes, goalNoteId, now),
                                     log.productiveMinutes, log.goalMinutes))
  {
    log.sessions := log.sessions + [session];
    log.productiveMinutes := log.productiveMinutes + session.durationMinutes;

    log.freeTimeEarned := CalculateFreeTimeRewards(log.productiveMinutes);
    UpdateStreakStatus(data, log);

    var notice := SessionNotice(partial, session.durationMinutes, session.taskName, sessionNoteId, now);
    AddNotification(data, notice.kind, notice.title, notice.message, None, sessionNoteId, now);

    if log.productiveMinutes >= log.goalMinutes {
      var goal := GoalNotice(log.productiveMinutes, goalNoteId, now);
      AddNotification(data, goal.kind, goal.title, goal.message, None, goalNoteId, now);
    }
  }

  class PomodoroPage {
    /** The loaded document and today's log; either may be missing when nothing was stored. */
    const data: AppData?
    const todayLog: DailyLog?
    /** The browser store the document is saved to. */
    const store: Store

    var phase: Phase
    var selectedPreset: nat
    var taskName: string
    var timeRemaining: int
    var totalFocusTime: int
    var sessionStartTime: Option<int>
    var pausedTime: int
    var pausedPhase: Option<Phase>
    var endTime: Option<int>
    var showEndDialog: bool
    var partialMinutes: int

    /** The selected preset is one of the table's entries. */
    predicate Valid()
      reads this
    {
      selectedPreset < |Presets|
    }

    /** The focus length of the selected preset, in seconds. */
    function FocusSeconds(): nat
      requires Valid()
      reads this
    {
      Presets[selectedPreset].focusMinutes * 60
    }

    /** completeSession can log only with a document, a log and a session start. */
    predicate Ready()
      reads this
    {
      data != null && todayLog != null && sessionStartTime.Some?
    }

    function MinutesWorked(partial: bool): int
      reads this
    {
      if partial then partialMinutes else totalFocusTime
    }

    /** The document fields that session logging writes, and the store, are as they were. */
    twostate predicate LedgerUnchanged()
      reads this, data, todayLog, store
    {
      && store.saved == old(store.saved)
      && (data != null ==> data.streakData == old(data.streakData) && data.notifications == old(data.notifications))
      && (data != null ==> data.lastUpdated == old(data.lastUpdated))
      && (todayLog != null ==>
            && todayLog.sessions == old(todayLog.sessions)
            && todayLog.productiveMinutes == old(todayLog.productiveMinutes)
            && todayLog.freeTimeEarned == old(todayLog.freeTimeEarned))
    }

    /** Session logging leaves every other field of the document and of today's log alone. */
    twostate predicate OtherDocumentFieldsUnchanged()
      reads data, todayLog
    {
      && (data != null ==> DocumentFieldsKept(data))
      && (todayLog != null ==> LogFieldsKept(todayLog))
    }

    /** Nothing is logged: the ledger and the session fields of the page are as they were. */
    twostate predicate NothingLogged()
      reads this, data, todayLog, store
    {
      && LedgerUnchanged()
      && taskName == old(taskName) && timeRemaining == old(timeRemaining)
      && sessionStartTime == old(sessionStartTime) && totalFocusTime == old(totalFocusTime)
    }

    /**
     * One session is logged: it is appended to today's log with its minutes credited, the free time
     * is recomputed, the streak re-evaluated, the notifications added, the document stamped and
     * saved, and the page's task cleared.
     */
    twostate predicate SessionLogged(partial: bool, now: int, stamp: string, sessionNoteId: string, goalNoteId: string)
      requires old(Valid()) && old(Ready()) && old(MinutesWorked(partial)) > 0
      reads this, data, todayLog, store, if data != null then data.dailyLogs.Values else {}
    {
      var worked: nat := old(MinutesWorked(partial));
      var task := Trim(old(taskName));
      var total := todayLog.productiveMinutes;
      && todayLog.sessions == old(todayLog.sessions) +
           [PomodoroSession(task, worked, old(sessionStartTime.value), now,
                            Presets[old(selectedPreset)].name, !partial, None, None)]
      && total == old(todayLog.productiveMinutes) + worked
      && todayLog.freeTimeEarned == FreeTimeReward(total)
      && data.streakData == NextStreak(old(data.streakData), DayQualifies(todayLog), todayLog.date)
      && data.notifications ==
           Some(CompletionNotices(ListOf(old(data.notifications)),
                                  SessionNotice(partial, worked, task, sessionNoteId, now),
                                  GoalNotice(total, goalNoteId, now),
                                  total, todayLog.goalMinutes))
      && data.lastUpdated == stamp && store.saved == Some(Serialize(data))
      && !showEndDialog && taskName == "" && timeRemaining == 0
      && sessionStartTime == None && totalFocusTime == 0
    }

    /**
     * The effect of completeSession on everything but the phase and the timer's end: nothing when
     * it cannot log; only the dialog closed when no minutes were worked; otherwise one session logged.
     */
    twostate predicate SessionCompleted(partial: bool, now: int, stamp: string, sessionNoteId: string, goalNoteId: string)
      requires old(Valid())
      reads this, data, todayLog, store, if data != null then data.dailyLogs.Values else {}
    {
      && selectedPreset == old(selectedPreset) && pausedTime == old(pausedTime)
      && partialMinutes == old(partialMinutes)
      && if !old(Ready()) then NothingLogged() && showEndDialog == old(showEndDialog)
         else if old(MinutesWorked(partial)) <= 0 then NothingLogged() && !showEndDialog
         else SessionLogged(partial, now, stamp, sessionNoteId, goalNoteId)
    }

    /** The page as first shown: idle, first preset, empty task, timer cleared. */
    constructor (data: AppData?, todayLog: DailyLog?, store: Store)
      ensures Valid() && this.data == data && this.todayLog == todayLog && this.store == store
      ensures phase == Idle && selectedPreset == 0 && taskName == ""
      ensures timeRemaining == 0 && totalFocusTime == 0 && sessionStartTime == None
      ensures pausedTime == 0 && pausedPhase == None && endTime == None
      ensures !showEndDialog && partialMinutes == 0
    {
      this.data := data;
      this.todayLog := todayLog;
      this.store := store;
      phase := Idle;
      selectedPreset := 0;
      taskName := "";
      timeRemaining := 0;
      totalFocusTime := 0;
      sessionStartTime := None;
      pausedTime := 0;
      pausedPhase := None;
      endTime := None;
      showEndDialog := false;
      partialMinutes := 0;
    }

    method SetTaskName(name: string)
      modifies this`taskName
      ensures taskName == name
    {
      taskName := name;
    }

    method SelectPreset(index: nat)
      requires index < |Presets|
      modifies this`selectedPreset
      ensures Valid() && selectedPreset == index
    {
      selectedPreset := index;
    }

    /** startSession: a task name that is blank once trimmed is refused; otherwise focus starts. */
    method StartSession(now: int) returns (started: bool)
      requires Valid()
      modifies this`phase, this`timeRemaining, this`sessionStartTime, this`totalFocusTime, this`endTime
      ensures started <==> Trim(old(taskName)) != ""
      ensures !started ==> unchanged(this)
      ensures started ==> (&& phase == Focus
                           && timeRemaining == FocusSeconds()
                           && totalFocusTime == Presets[selectedPreset].focusMinutes
                           && sessionStartTime == Some(now)
                           && endTime == Some(now + timeRemaining * 1000))
    {
      if Trim(taskName) == "" {
        return false;
      }
      var duration := Presets[selectedPreset].focusMinutes * 60;
      phase := Focus;
      timeRemaining := duration;
      sessionStartTime := Some(now);
      totalFocusTime := Presets[selectedPreset].focusMinutes;
      endTime := Some(now + duration * 1000);
      return true;
    }

    /** pauseSession: only a running phase pauses; its phase and remaining time are kept. */
    method PauseSession()
      modifies this`pausedTime, this`pausedPhase, this`phase, this`endTime
      ensures IsRunning(old(phase)) ==>
                phase == Paused && pausedTime == old(timeRemaining) && pausedPhase == Some(old(phase)) && endTime == None
      ensures !IsRunning(old(phase)) ==> unchanged(this)
    {
      if phase == Focus || phase == Break {
        pausedTime := timeRemaining;
        pausedPhase := Some(phase);
        phase := Paused;
        endTime := None;
      }
    }

    /** resumeSession: only a paused timer resumes, with the kept time and a new end instant. */
    method ResumeSession(now: int)
      modifies this`timeRemaining, this`phase, this`endTime
      ensures old(phase) == Paused ==>
                && timeRemaining == pausedTime
                && phase == ResumePhase(pausedPhase, totalFocusTime)
                && endTime == Some(now + pausedTime * 1000)
      ensures old(phase) != Paused ==> unchanged(this)
    {
      if phase == Paused {
        timeRemaining := pausedTime;
        phase := ResumePhase(pausedPhase, totalFocusTime);
        endTime := Some(now + pausedTime * 1000);
      }
    }

    /** completeSession: log the full or the partial minutes to today's log. */
    method CompleteSession(partial: bool, now: int, stamp: string, sessionNoteId: string, goalNoteId: string)
      requires Valid()
      modifies this, data, todayLog, store
      ensures Valid() && OtherDocumentFieldsUnchanged()
      ensures SessionCompleted(partial, now, stamp, sessionNoteId, goalNoteId)
      ensures phase == if old(Ready()) then Idle else old(phase)
      ensures pausedPhase == old(pausedPhase) && endTime == old(endTime)
    {
      if data == null || todayLog == null || sessionStartTime.None? {
        return;
      }
      var minutesWorked := if partial then partialMinutes else totalFocusTime;
      if minutesWorked <= 0 {
        phase := Idle;
        showEndDialog := false;
        return;
      }
      LogSession(partial, now, stamp, sessionNoteId, goalNoteId);
    }

    /** The logging path of completeSession, once a document, a log, a start and minutes are there. */
    method LogSession(partial: bool, now: int, stamp: string, sessionNoteId: string, goalNoteId: string)
      requires Valid() && Ready() && MinutesWorked(partial) > 0
      modifies this`phase, this`taskName, this`showEndDialog, this`timeRemaining
      modifies this`sessionStartTime, this`totalFocusTime
      modifies store, data`streakData, data`notifications, data`lastUpdated
      modifies todayLog`sessions, todayLog`productiveMinutes, todayLog`freeTimeEarned
      ensures SessionLogged(partial, now, stamp, sessionNoteId, goalNoteId) && phase == Idle
      ensures OtherDocumentFieldsUnchanged()
    {
      var session := PomodoroSession(Trim(taskName), MinutesWorked(partial), sessionStartTime.value, now,
                                     Presets[selectedPreset].name, !partial, None, None);
      RecordSession(data, todayLog, session, partial, sessionNoteId, goalNoteId, now);
      SaveAppData(store, data, stamp);
      ResetAfterLogging();
    }

    /** The reset after a logged session: idle, task and timer cleared, dialog closed. */
    method ResetAfterLogging()
      modifies this`phase, this`taskName, this`showEndDialog, this`timeRemaining
      modifies this`sessionStartTime, this`totalFocusTime
      ensures phase == Idle && taskName == "" && !showEndDialog && timeRemaining == 0
      ensures sessionStartTime == None && totalFocusTime == 0
    {
      phase := Idle;
      taskName := "";
      showEndDialog := false;
      timeRemaining := 0;
      sessionStartTime := None;
      totalFocusTime := 0;
    }

    /** handlePhaseComplete: focus gives way to break; the end of a break logs the full session. */
    method HandlePhaseComplete(now: int, stamp: string, sessionNoteId: string, goalNoteId: string)
      requires Valid()
      modifies this, data, todayLog, store
      ensures Valid() && OtherDocumentFieldsUnchanged()
      ensures old(phase) == Focus ==>
                && phase == Break
                && timeRemaining == Presets[selectedPreset].breakMinutes * 60
                && endTime == Some(now + timeRemaining * 1000)
                && LedgerUnchanged()
                && selectedPreset == old(selectedPreset) && taskName == old(taskName)
                && totalFocusTime == old(totalFocusTime) && sessionStartTime == old(sessionStartTime)
                && pausedTime == old(pausedTime) && pausedPhase == old(pausedPhase)
                && showEndDialog == old(showEndDialog) && partialMinutes == old(partialMinutes)
      ensures old(phase) == Break ==>
                && phase == Idle && pausedPhase == None && endTime == None
                && SessionCompleted(false, now, stamp, sessionNoteId, goalNoteId)
      ensures old(phase) != Focus && old(phase) != Break ==> unchanged(this) && LedgerUnchanged()
    {
      if phase == Focus {
        phase := Break;
        var breakSeconds := Presets[selectedPreset].breakMinutes * 60;
        timeRemaining := breakSeconds;
        endTime := Some(now + breakSeconds * 1000);
      } else if phase == Break {
        phase := Idle;
        pausedPhase := None;
        endTime := None;
        CompleteSession(false, now, stamp, sessionNoteId, goalNoteId);
      }
    }

    /**
     * stopSession: during a break the session is logged in full; otherwise the end dialog opens
     * with the whole minutes of focus done so far.
     */
    method StopSession(now: int, stamp: string, sessionNoteId: string, goalNoteId: string)
      requires Valid()
      modifies this, data, todayLog, store
      ensures Valid() && OtherDocumentFieldsUnchanged()
      ensures old(phase) == Break ==>
                && phase == Idle && pausedPhase == old(pausedPhase) && endTime == old(endTime)
                && SessionCompleted(false, now, stamp, sessionNoteId, goalNoteId)
      ensures old(phase) != Break ==>
                && showEndDialog
                && partialMinutes == (old(FocusSeconds()) - old(timeRemaining)) / 60
                && LedgerUnchanged()
                && phase == old(phase) && selectedPreset == old(selectedPreset) && taskName == old(taskName)
                && timeRemaining == old(timeRemaining) && totalFocusTime == old(totalFocusTime)
                && sessionStartTime == old(sessionStartTime) && pausedTime == old(pausedTime)
                && pausedPhase == old(pausedPhase) && endTime == old(endTime)
    {
      if phase == Break {
        phase := Idle;
        CompleteSession(false, now, stamp, sessionNoteId, goalNoteId);
        return;
      }
      showEndDialog := true;
      partialMinutes := (Presets[selectedPreset].focusMinutes * 60 - timeRemaining) / 60;
    }

    /** The end dialog's Discard: back to idle with the task name cleared and nothing logged. */
    method DiscardPartial()
      modifies this`phase, this`showEndDialog, this`taskName
      ensures phase == Idle && !showEndDialog && taskName == ""
    {
      phase := Idle;
      showEndDialog := false;
      taskName := "";
    }

    /** The end dialog's Cancel: the dialog closes and the timer carries on. */
    method CancelEndDialog()
      modifies this`showEndDialog
      ensures !showEndDialog
    {
      showEndDialog := false;
    }

    /**
     * The restore on page load: a snapshot that survives LoadTimerState sets the phase, the
     * times, the task name and the preset. The paused phase and the end instant are not restored.
     */
    method RestoreTimerState(saved: Option<PersistedTimerState>, now: int)
      requires saved.Some? ==> saved.value.selectedPreset < |Presets|
      requires Valid()
      modifies this`phase, this`timeRemaining, this`totalFocusTime, this`taskName
      modifies this`selectedPreset, this`sessionStartTime, this`pausedTime
      ensures Valid()
      ensures LoadTimerState(saved, now).None? ==> unchanged(this)
      ensures LoadTimerState(saved, now).Some? ==>
                var s := LoadTimerState(saved, now).value;
                && phase == s.phase && timeRemaining == s.timeRemaining && totalFocusTime == s.totalFocusTime
                && taskName == s.taskName && selectedPreset == s.selectedPreset
                && sessionStartTime == s.sessionStartTime && pausedTime == s.pausedTime
    {
      var loaded := LoadTimerState(saved, now);
      if loaded.Some? {
        var s := loaded.value;
        phase := s.phase;
        timeRemaining := s.timeRemaining;
        totalFocusTime := s.totalFocusTime;
        taskName := s.taskName;
        selectedPreset := s.selectedPreset;
        sessionStartTime := s.sessionStartTime;
        pausedTime := s.pausedTime;
      }
    }
  }

  /** Pausing a running timer and resuming it returns to the same phase with the same time left. */
  method PauseThenResume(page: PomodoroPage, now: int)
    requires IsRunning(page.phase)
    modifies page
    ensures page.phase == old(page.phase) && page.timeRemaining == old(page.timeRemaining)
    ensures page.endTime == Some(now + old(page.timeRemaining) * 1000)
  {
    page.PauseSession();
    page.ResumeSession(now);
  }

  /**
   * A session run to its end: started, its focus completed, then its break completed. Exactly one
   * finished session of the preset's focus length is appended and credited, and the page is idle.
   */
  method RunFullSession(page: PomodoroPage, startedAt: int, focusEndsAt: int, breakEndsAt: int,
                        stamp: string, sessionNoteId: string, goalNoteId: string)
    requires page.Valid() && page.data != null && page.todayLog != null
    requires Trim(page.taskName) != ""
    modifies page, page.data, page.todayLog, page.store
    ensures page.phase == Idle && page.taskName == ""
    ensures page.store.saved == Some(Serialize(page.data)) && page.data.lastUpdated == stamp
    ensures page.todayLog.sessions == old(page.todayLog.sessions) +
              [PomodoroSession(Trim(old(page.taskName)), Presets[old(page.selectedPreset)].focusMinutes,
                               startedAt, breakEndsAt, Presets[old(page.selectedPreset)].name, true, None, None)]
    ensures page.todayLog.productiveMinutes ==
              old(page.todayLog.productiveMinutes) + Presets[old(page.selectedPreset)].focusMinutes
  {
    var started := page.StartSession(startedAt);
    page.HandlePhaseComplete(focusEndsAt, stamp, sessionNoteId, goalNoteId);
    page.HandlePhaseComplete(breakEndsAt, stamp, sessionNoteId, goalNoteId);
  }

  /**
   * A break paused, saved and restored on a new page load comes back as focus: the snapshot's
   * paused phase is not restored, and the session still has focus minutes.
   */
  method RestoredPausedBreakResumesAsFocus(data: AppData?, todayLog: DailyLog?, store: Store,
                                           saved: PersistedTimerState, loadedAt: int, resumedAt: int)
    returns (page: PomodoroPage)
    requires saved.phase == Paused && saved.pausedPhase == Some(Break)
    requires saved.totalFocusTime > 0 && saved.selectedPreset < |Presets|
    requires loadedAt - saved.lastUpdate <= MaxStateAge
    ensures page.phase == Focus && page.timeRemaining == saved.pausedTime
  {
    page := new PomodoroPage(data, todayLog, store);
    page.RestoreTimerState(Some(saved), loadedAt);
    page.ResumeSession(resumedAt);
  }
}
