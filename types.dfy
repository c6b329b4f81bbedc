/**
 * The record shapes of the application-state document and the constant reward table
 * (types/index.ts), plus the in-app notification record (lib/in-app-notifications.ts),
 * which the document carries as an extra field.
 */
module Types {
  import opened Wrappers

  /** One row of the reward table: reaching `hours` productive hours in a day unlocks
      `freeTimeMinutes` more free time, `cumulative` in total. */
  datatype RewardTier = RewardTier(hours: nat, freeTimeMinutes: nat, cumulative: nat)

  const RewardTiers: seq<RewardTier> := [
    RewardTier(2, 15, 15),
    RewardTier(4, 20, 35),
    RewardTier(6, 30, 65),
    RewardTier(8, 40, 105)
  ]

  /** Thresholds and cumulative rewards both strictly increase along the table. */
  predicate StrictlyAscending(tiers: seq<RewardTier>) {
    forall i, j :: 0 <= i < j < |tiers| ==>
      tiers[i].hours < tiers[j].hours && tiers[i].cumulative < tiers[j].cumulative
  }

  /** Each tier's cumulative reward is the previous one's plus its own increment. */
  predicate Chained(tiers: seq<RewardTier>) {
    && (|tiers| > 0 ==> tiers[0].cumulative == tiers[0].freeTimeMinutes)
    && forall i :: 0 < i < |tiers| ==> tiers[i].cumulative == tiers[i - 1].cumulative + tiers[i].freeTimeMinutes
  }

  lemma RewardTiersWellFormed()
    ensures |RewardTiers| == 4
    ensures RewardTiers[0].hours == 2 && RewardTiers[1].hours == 4
    ensures RewardTiers[2].hours == 6 && RewardTiers[3].hours == 8
    ensures StrictlyAscending(RewardTiers) && Chained(RewardTiers)
  {
  }

  datatype Theme = Light | Dark

  datatype UserProfile = UserProfile(
    name: string,
    role: string,
    longTermGoal: string,
    dailyCommitmentMinutes: nat,
    createdAt: string,
    theme: Theme)

  /** A finished focus session; start and end are instants in milliseconds. */
  datatype PomodoroSession = PomodoroSession(
    taskName: string,
    durationMinutes: nat,
    startTime: int,
    endTime: int,
    preset: string,
    completed: bool,
    actualFocusTime: Option<nat>,
    notes: Option<string>)

  /** The record of one calendar day. The date key and the goal are fixed when the log is created. */
  class DailyLog {
    const date: string
    var productiveMinutes: nat
    const goalMinutes: nat
    var backlogMinutes: nat
    var sessions: seq<PomodoroSession>
    var streakSaverUsed: bool
    var backlogSaversEarned: nat
    var backlogSaversUsed: nat
    var freeTimeEarned: nat
    var freeTimeUsed: nat
    var notes: Option<string>

    /** A log with no work done yet and every counter at zero. */
    constructor (date: string, goalMinutes: nat, backlogMinutes: nat)
      ensures this.date == date && this.goalMinutes == goalMinutes && this.backlogMinutes == backlogMinutes
      ensures productiveMinutes == 0 && sessions == [] && !streakSaverUsed
      ensures backlogSaversEarned == 0 && backlogSaversUsed == 0
      ensures freeTimeEarned == 0 && freeTimeUsed == 0 && notes == None
    {
      this.date := date;
      this.goalMinutes := goalMinutes;
      this.backlogMinutes := backlogMinutes;
      productiveMinutes := 0;
      sessions := [];
      streakSaverUsed := false;
      backlogSaversEarned := 0;
      backlogSaversUsed := 0;
      freeTimeEarned := 0;
      freeTimeUsed := 0;
      notes := None;
    }
  }

  /** The streak ledger shared by all days. */
  datatype StreakData = StreakData(
    currentStreak: nat,
    longestStreak: nat,
    totalDays: nat,
    streakSavers: nat,
    backlogSavers: nat,
    lastStreakSaverEarned: Option<string>)

  datatype NotificationKind = Info | Success | Warning | Milestone

  datatype Notification = Notification(
    id: string,
    kind: NotificationKind,
    title: string,
    message: string,
    timestamp: int,
    read: bool,
    icon: Option<string>)

  /** The root document: everything the application persists. */
  class AppData {
    var version: string
    var profile: UserProfile
    var dailyLogs: map<string, DailyLog>
    var streakData: StreakData
    var lastUpdated: string
    var notifications: Option<seq<Notification>>

    constructor (version: string, profile: UserProfile, dailyLogs: map<string, DailyLog>,
                 streakData: StreakData, lastUpdated: string)
      ensures this.version == version && this.profile == profile && this.dailyLogs == dailyLogs
      ensures this.streakData == streakData && this.lastUpdated == lastUpdated
      ensures notifications == None
    {
      this.version := version;
      this.profile := profile;
      this.dailyLogs := dailyLogs;
      this.streakData := streakData;
      this.lastUpdated := lastUpdated;
      notifications := None;
    }
  }

  datatype BackupData = BackupData(version: string, exportDate: string, data: AppData)
}
