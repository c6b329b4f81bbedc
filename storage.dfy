/**
 * The application-state document's lifecycle (lib/storage.ts): the default document,
 * the lazy creation of today's log with its goal, carried backlog and daily saver grant,
 * and the version guard on restore. The browser store is reduced to a slot holding the
 * serialised form of the last saved document; today's and yesterday's date keys and the current instant are
 * parameters.
 */
module Storage {
  import opened Wrappers
  import opened Types
  import opened Streak

  const CurrentVersion: string := "1.0.0"

  /** Backlog-saver minutes granted on every day that follows a tracked day. */
  const DailyBacklogGrant: nat := 15

  /** The ceiling the daily grant enforces on the backlog-saver balance. */
  const BacklogSaverCap: nat := 450

  /** getDefaultAppData: a new document with no logs and an all-zero ledger. */
  method GetDefaultAppData(profile: UserProfile, now: string) returns (data: AppData)
    ensures fresh(data)
    ensures data.version == CurrentVersion && data.profile == profile && data.dailyLogs == map[]
    ensures data.streakData == StreakData(0, 0, 0, 0, 0, None)
    ensures data.lastUpdated == now && data.notifications == None
  {
    var streak := StreakData(
      currentStreak := 0, longestStreak := 0, totalDays := 0,
      streakSavers := 0, backlogSavers := 0, lastStreakSaverEarned := None);
    data := new AppData(CurrentVersion, profile, map[], streak, now);
  }

  lemma DefaultLedgerIsValid()
    ensures ValidStreak(StreakData(0, 0, 0, 0, 0, None))
  {
  }

  /** The balance after one day's grant: 15 more minutes, truncated to the cap. */
  function GrantDailyBacklogSaver(balance: nat): (r: nat)
    ensures r <= BacklogSaverCap
    ensures r <= balance + DailyBacklogGrant
    ensures r == balance + DailyBacklogGrant || r == BacklogSaverCap
  {
    if balance + DailyBacklogGrant > BacklogSaverCap then BacklogSaverCap else balance + DailyBacklogGrant
  }

  /** The balance after `days` consecutive daily grants. */
  function GrantDays(balance: nat, days: nat): nat
    decreases days
  {
    if days == 0 then balance else GrantDailyBacklogSaver(GrantDays(balance, days - 1))
  }

  /** After any number of daily grants the balance is within the cap, and from a balance
      within the cap it is exactly the smaller of the accumulated grants and the cap. */
  lemma {:induction false} GrantsStayCapped(balance: nat, days: nat)
    ensures days >= 1 ==> GrantDays(balance, days) <= BacklogSaverCap
    ensures balance <= BacklogSaverCap ==>
              GrantDays(balance, days) ==
                if balance + DailyBacklogGrant * days > BacklogSaverCap then BacklogSaverCap
                else balance + DailyBacklogGrant * days
    decreases days
  {
    if days > 0 {
      GrantsStayCapped(balance, days - 1);
    }
  }

  /** `data.dailyLogs[date]`, or null when there is no log for that date. */
  function LogOrNull(logs: map<string, DailyLog>, date: string): (log: DailyLog?)
    ensures log != null <==> date in logs
    ensures log != null ==> log == logs[date]
  {
    if date in logs then logs[date] else null
  }

  /** getTodayLog: return today's log, creating it from yesterday's on first access. */
  method GetTodayLog(data: AppData, today: string, yesterday: string) returns (log: DailyLog)
    modifies data`dailyLogs, data`streakData
    ensures today in data.dailyLogs && data.dailyLogs[today] == log
    ensures old(today in data.dailyLogs) ==>
              log == old(data.dailyLogs[today]) && data.dailyLogs == old(data.dailyLogs) &&
              data.streakData == old(data.streakData)
    ensures old(today !in data.dailyLogs) ==> fresh(log) && data.dailyLogs == old(data.dailyLogs)[today := log]
    ensures old(today !in data.dailyLogs) ==>
              log.date == today && log.productiveMinutes == 0 && log.sessions == [] &&
              !log.streakSaverUsed && log.backlogSaversUsed == 0 &&
              log.freeTimeEarned == 0 && log.freeTimeUsed == 0 && log.notes == None
    ensures old(today !in data.dailyLogs) ==>
              var y := LogOrNull(old(data.dailyLogs), yesterday);
              && log.goalMinutes == CalculateDailyGoal(y, data.profile.dailyCommitmentMinutes)
              && log.backlogMinutes == (if y == null then 0 else y.backlogMinutes + CalculateBacklog(y.productiveMinutes, y.goalMinutes))
              && log.backlogSaversEarned == (if y == null then 0 else DailyBacklogGrant)
              && data.streakData == (if y == null then old(data.streakData)
                                     else old(data.streakData).(backlogSavers := GrantDailyBacklogSaver(old(data.streakData.backlogSavers))))
  {
    if today !in data.dailyLogs {
      var yesterdayLog := LogOrNull(data.dailyLogs, yesterday);

      var goalMinutes := data.profile.dailyCommitmentMinutes;
      var backlogMinutes := 0;

      if yesterdayLog != null {
        goalMinutes := if yesterdayLog.productiveMinutes >= data.profile.dailyCommitmentMinutes
                       then yesterdayLog.productiveMinutes else data.profile.dailyCommitmentMinutes;
        backlogMinutes := yesterdayLog.backlogMinutes;

        if yesterdayLog.productiveMinutes < yesterdayLog.goalMinutes {
          var missedMinutes := yesterdayLog.goalMinutes - yesterdayLog.productiveMinutes;
          backlogMinutes := backlogMinutes + missedMinutes;
        }
      }

      var created := new DailyLog(today, goalMinutes, backlogMinutes);
      data.dailyLogs := data.dailyLogs[today := created];

      if yesterdayLog != null {
        created.backlogSaversEarned := DailyBacklogGrant;
        data.streakData := data.streakData.(backlogSavers := data.streakData.backlogSavers + DailyBacklogGrant);
        if data.streakData.backlogSavers > BacklogSaverCap {
          data.streakData := data.streakData.(backlogSavers := BacklogSaverCap);
        }
      }
    }
    log := data.dailyLogs[today];
  }

  /** The serialised form of one daily log: its fields as values, detached from the object. */
  datatype LogRecord = LogRecord(
    date: string,
    productiveMinutes: nat,
    goalMinutes: nat,
    backlogMinutes: nat,
    sessions: seq<PomodoroSession>,
    streakSaverUsed: bool,
    backlogSaversEarned: nat,
    backlogSaversUsed: nat,
    freeTimeEarned: nat,
    freeTimeUsed: nat,
    notes: Option<string>)

  /** The serialised form of the whole document, as JSON.stringify writes it. */
  datatype DocumentRecord = DocumentRecord(
    version: string,
    profile: UserProfile,
    dailyLogs: map<string, LogRecord>,
    streakData: StreakData,
    lastUpdated: string,
    notifications: Option<seq<Notification>>)

  function RecordOfLog(log: DailyLog): LogRecord
    reads log
  {
    LogRecord(log.date, log.productiveMinutes, log.goalMinutes, log.backlogMinutes, log.sessions,
              log.streakSaverUsed, log.backlogSaversEarned, log.backlogSaversUsed,
              log.freeTimeEarned, log.freeTimeUsed, log.notes)
  }

  /** JSON.stringify of the document: a value copy of its fields and of every log it holds. */
  function Serialize(data: AppData): (doc: DocumentRecord)
    reads data, data.dailyLogs.Values
    ensures doc.dailyLogs.Keys == data.dailyLogs.Keys
    ensures forall d :: d in data.dailyLogs ==>
              doc.dailyLogs[d].productiveMinutes == data.dailyLogs[d].productiveMinutes &&
              doc.dailyLogs[d].sessions == data.dailyLogs[d].sessions
    ensures doc.streakData == data.streakData && doc.lastUpdated == data.lastUpdated
    ensures doc.notifications == data.notifications
  {
    DocumentRecord(data.version, data.profile,
                   map d | d in data.dailyLogs :: RecordOfLog(data.dailyLogs[d]),
                   data.streakData, data.lastUpdated, data.notifications)
  }

  /** The slot of the browser store that holds the serialised document last saved. */
  class Store {
    var saved: Option<DocumentRecord>

    constructor ()
      ensures saved == None
    {
      saved := None;
    }
  }

  /** saveAppData: stamp the document and write its serialised form to the store. */
  method SaveAppData(store: Store, data: AppData, now: string)
    modifies store, data`lastUpdated
    ensures data.lastUpdated == now && store.saved == Some(Serialize(data))
  {
    data.lastUpdated := now;
    var doc := Serialize(data);
    store.saved := Some(doc);
    assert Serialize(data) == doc;
  }

  /**
   * A change made after a save is not in the store until the next save: creating today's log
   * after saving leaves the stored document without it, and the balance stored is the one saved.
   */
  method LoadWithoutSaveIsNotStored(store: Store, data: AppData, today: string, yesterday: string, stamp: string)
    requires today !in data.dailyLogs
    modifies store, data`lastUpdated, data`dailyLogs, data`streakData
    ensures today in data.dailyLogs
    ensures store.saved.Some? && today !in store.saved.value.dailyLogs
    ensures store.saved.value.streakData == old(data.streakData)
  {
    SaveAppData(store, data, stamp);
    var log := GetTodayLog(data, today, yesterday);
  }

  datatype RestoreResult = Restored | Rejected(message: string)

  /** restoreBackup: refuse a backup of any other version, saving nothing; otherwise save its document. */
  method RestoreBackup(store: Store, backup: BackupData, now: string) returns (r: RestoreResult)
    modifies store, backup.data`lastUpdated
    ensures r.Restored? <==> backup.version == CurrentVersion
    ensures r.Rejected? ==> r.message == "Incompatible backup version"
    ensures r.Rejected? ==> unchanged(store) && backup.data.lastUpdated == old(backup.data.lastUpdated)
    ensures r.Restored? ==> store.saved == Some(Serialize(backup.data)) && backup.data.lastUpdated == now
  {
    if backup.version != CurrentVersion {
      return Rejected("Incompatible backup version");
    }
    SaveAppData(store, backup.data, now);
    return Restored;
  }
}
